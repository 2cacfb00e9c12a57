/**
 * The user service of the ledger backend: creating users, inviting people by email and accepting
 * an invitation. Timestamps are instants in seconds; the random invitation token and the password
 * encoder are supplied by the caller.
 */
module UserServices {
  import opened Wrappers
  import UserValidation
  import InviteValidation

  type Id = nat

  datatype Role = Owner | Admin | Manager | Staff | Viewer
  datatype UserStatus = Active | Invited | Disabled
  datatype InviteStatus = Pending | Accepted | Expired

  const ROLE_ENUM := "com.ledgertalk.users.entity.User.Role"
  const STATUS_ENUM := "com.ledgertalk.users.entity.User.Status"

  /** `Enum.valueOf`: the constant of that exact name, or the exception it raises. */
  function ParseRole(s: string): (r: Result<Role>)
    ensures r.Err? ==> r.error == "No enum constant " + ROLE_ENUM + "." + s
  {
    match s
    case "OWNER" => Ok(Owner)
    case "ADMIN" => Ok(Admin)
    case "MANAGER" => Ok(Manager)
    case "STAFF" => Ok(Staff)
    case "VIEWER" => Ok(Viewer)
    case _ => Err("No enum constant " + ROLE_ENUM + "." + s)
  }

  function RoleName(r: Role): string
  {
    match r
    case Owner => "OWNER"
    case Admin => "ADMIN"
    case Manager => "MANAGER"
    case Staff => "STAFF"
    case Viewer => "VIEWER"
  }

  lemma RoleRoundTrip(r: Role, s: string)
    ensures ParseRole(RoleName(r)) == Ok(r)
    ensures ParseRole(s).Ok? ==> RoleName(ParseRole(s).value) == s
  {
  }

  function ParseUserStatus(s: string): (r: Result<UserStatus>)
    ensures r.Err? ==> r.error == "No enum constant " + STATUS_ENUM + "." + s
  {
    match s
    case "ACTIVE" => Ok(Active)
    case "INVITED" => Ok(Invited)
    case "DISABLED" => Ok(Disabled)
    case _ => Err("No enum constant " + STATUS_ENUM + "." + s)
  }

  function UserStatusName(s: UserStatus): string
  {
    match s
    case Active => "ACTIVE"
    case Invited => "INVITED"
    case Disabled => "DISABLED"
  }

  lemma UserStatusRoundTrip(st: UserStatus, s: string)
    ensures ParseUserStatus(UserStatusName(st)) == Ok(st)
    ensures ParseUserStatus(s).Ok? ==> UserStatusName(ParseUserStatus(s).value) == s
  {
  }

  /** A stored user; a user created from a profile has no password hash yet. */
  datatype User = User(id: Id, orgId: Id, name: string, email: string, role: Role, status: UserStatus,
                       passwordHash: Option<string>, createdAt: int, updatedAt: int, createdBy: Id, updatedBy: Id)

  /** A stored invitation. */
  datatype Invite = Invite(orgId: Id, email: string, role: Role, token: string, expiresAt: int,
                           status: InviteStatus, createdAt: int, updatedAt: Option<int>, createdBy: Id)

  const USER_EXISTS := "User with this email already exists"
  const INVITE_EXISTS := "Invite already exists for this email"
  const INVALID_TOKEN := "Invalid invite token"
  const INVITE_EXPIRED := "Invite has expired"
  const INVITE_USED := "Invite has already been used"
  /** What `save` raises when the email column's unique constraint is broken; the wording is the model's. */
  const DUPLICATE_EMAIL := "DataIntegrityViolationException: duplicate key value violates unique constraint on users.email"

  /** An invitation is valid for seven days. */
  const INVITE_LIFETIME: int := 7 * 24 * 60 * 60

  /** `existsByEmailAndOrgId` */
  predicate EmailTaken(users: map<Id, User>, email: string, orgId: Id)
  {
    exists id :: id in users && users[id].email == email && users[id].orgId == orgId
  }

  /** `existsByEmailAndOrgIdAndStatus(email, orgId, "PENDING")` */
  predicate PendingFor(invites: seq<Invite>, email: string, orgId: Id)
  {
    exists i :: 0 <= i < |invites| && invites[i].email == email && invites[i].orgId == orgId && invites[i].status == Pending
  }

  /** Users are keyed by id, below the next id to hand out. */
  predicate UsersKeyed(users: map<Id, User>, nextId: nat)
  {
    forall id :: id in users ==> users[id].id == id && id < nextId
  }

  /** No two invitations share a token, so `findByToken` finds at most one. */
  predicate TokensDistinct(invites: seq<Invite>)
  {
    forall i, j :: 0 <= i < j < |invites| ==> invites[i].token != invites[j].token
  }

  /** At most one pending invitation per email in an organisation. */
  predicate OnePendingPerEmail(invites: seq<Invite>)
  {
    forall i, j :: 0 <= i < j < |invites| && invites[i].status == Pending && invites[j].status == Pending
      ==> invites[i].email != invites[j].email || invites[i].orgId != invites[j].orgId
  }

  /** Some user, of any organisation, already has the email: the unique email column refuses a second one. */
  predicate EmailInUse(users: map<Id, User>, email: string)
  {
    exists id :: id in users && users[id].email == email
  }

  /** No two users share an email, in any organisations: the email column is unique across the whole table. */
  predicate UniqueEmails(users: map<Id, User>)
  {
    forall a, b :: a in users && b in users && users[a].email == users[b].email ==> a == b
  }

  /** `findByToken`: the position of the invitation with that token. */
  function FindToken(invites: seq<Invite>, token: string): (r: Option<nat>)
    ensures r.Some? ==> r.value < |invites| && invites[r.value].token == token
    ensures r.None? <==> forall i :: 0 <= i < |invites| ==> invites[i].token != token
  {
    if invites == [] then None
    else if invites[|invites| - 1].token == token then Some(|invites| - 1)
    else FindToken(invites[..|invites| - 1], token)
  }

  /** The checks of `createUser` before anything is stored: the profile, then the email within the organisation. */
  function CreateUserCheck(users: map<Id, User>, dto: UserValidation.UserDto, orgId: Id): (r: Result<(Role, UserStatus)>)
    ensures r.Ok? <==> UserValidation.Validate(dto).None? && !EmailTaken(users, dto.email.value, orgId)
                       && ParseRole(dto.role.value).Ok? && ParseUserStatus(dto.status.value).Ok?
    ensures UserValidation.Validate(dto).Some? ==> r == Err(UserValidation.Validate(dto).value)
    ensures UserValidation.Validate(dto).None? && EmailTaken(users, dto.email.value, orgId) ==> r == Err(USER_EXISTS)
    ensures r.Ok? ==> r.value == (ParseRole(dto.role.value).value, ParseUserStatus(dto.status.value).value)
  {
    var v := UserValidation.Validate(dto);
    if v.Some? then Err(v.value)
    else if EmailTaken(users, dto.email.value, orgId) then Err(USER_EXISTS)
    else
      var role := ParseRole(dto.role.value);
      var status := ParseUserStatus(dto.status.value);
      if role.Err? then Err(role.error)
      else if status.Err? then Err(status.error)
      else Ok((role.value, status.value))
  }

  /** The checks of `createInvite`: the request, a pending duplicate, then the role name. */
  function CreateInviteCheck(invites: seq<Invite>, request: UserValidation.CreateInviteRequest, orgId: Id): (r: Result<Role>)
    ensures r.Ok? <==> UserValidation.ValidateInvite(request).None? && !PendingFor(invites, request.email.value, orgId)
                       && ParseRole(request.role.value).Ok?
    ensures UserValidation.ValidateInvite(request).Some? ==> r == Err(UserValidation.ValidateInvite(request).value)
    ensures UserValidation.ValidateInvite(request).None? && PendingFor(invites, request.email.value, orgId) ==> r == Err(INVITE_EXISTS)
    ensures r.Ok? ==> r.value == ParseRole(request.role.value).value
  {
    var v := UserValidation.ValidateInvite(request);
    if v.Some? then Err(v.value)
    else if PendingFor(invites, request.email.value, orgId) then Err(INVITE_EXISTS)
    else ParseRole(request.role.value)
  }

  /** The checks of `acceptInvite`: the request, the token, the expiry (`isBefore(now)`), then the status. */
  function AcceptCheck(invites: seq<Invite>, request: InviteValidation.AcceptInviteRequest, now: int): (r: Result<nat>)
    ensures InviteValidation.ValidateAcceptInvite(request).Some? ==> r == Err(InviteValidation.ValidateAcceptInvite(request).value)
    ensures InviteValidation.ValidateAcceptInvite(request).None? ==>
      (FindToken(invites, request.token.value).None? <==> r == Err(INVALID_TOKEN))
    ensures InviteValidation.ValidateAcceptInvite(request).None? && FindToken(invites, request.token.value).Some? ==>
      var k := FindToken(invites, request.token.value).value;
      && (invites[k].expiresAt < now <==> r == Err(INVITE_EXPIRED))
      && (invites[k].expiresAt >= now && invites[k].status != Pending <==> r == Err(INVITE_USED))
    ensures r.Ok? <==>
      && InviteValidation.ValidateAcceptInvite(request).None?
      && FindToken(invites, request.token.value).Some?
      && invites[FindToken(invites, request.token.value).value].expiresAt >= now
      && invites[FindToken(invites, request.token.value).value].status == Pending
    ensures r.Ok? ==> r.value < |invites| && invites[r.value].token == request.token.value
  {
    var v := InviteValidation.ValidateAcceptInvite(request);
    if v.Some? then Err(v.value)
    else
      match FindToken(invites, request.token.value)
      case None => Err(INVALID_TOKEN)
      case Some(k) =>
        if invites[k].expiresAt < now then Err(INVITE_EXPIRED)
        else if invites[k].status != Pending then Err(INVITE_USED)
        else Ok(k)
  }

  /** The user an accepted invitation creates. */
  function InvitedUser(id: Id, invite: Invite, request: InviteValidation.AcceptInviteRequest,
                       encode: string -> string, now: int): User
    requires request.name.Some? && request.password.Some?
  {
    User(id, invite.orgId, request.name.value, invite.email, invite.role, Active,
         Some(encode(request.password.value)), now, now, invite.createdBy, invite.createdBy)
  }

  /** A new invitation is pending and expires seven days after it is made. */
  function NewInvite(request: UserValidation.CreateInviteRequest, role: Role, token: string, orgId: Id, createdBy: Id, now: int): (inv: Invite)
    requires request.email.Some?
    ensures inv.status == Pending && inv.expiresAt == now + INVITE_LIFETIME && inv.email == request.email.value
  {
    Invite(orgId, request.email.value, role, token, now + INVITE_LIFETIME, Pending, now, None, createdBy)
  }

  /** An invitation can be accepted once only: after acceptance its token is refused, whatever the request. */
  lemma AcceptOnlyOnce(invites: seq<Invite>, request: InviteValidation.AcceptInviteRequest, now: int,
                       again: InviteValidation.AcceptInviteRequest, later: int)
    requires TokensDistinct(invites)
    requires AcceptCheck(invites, request, now).Ok?
    requires again.token == request.token
    ensures var k := AcceptCheck(invites, request, now).value;
      AcceptCheck(invites[k := invites[k].(status := Accepted, updatedAt := Some(now))], again, later).Err?
  {
    var k := AcceptCheck(invites, request, now).value;
    var invites' := invites[k := invites[k].(status := Accepted, updatedAt := Some(now))];
    var t := request.token.value;
    if InviteValidation.ValidateAcceptInvite(again).None? {
      assert invites'[k].token == t;
      assert forall i :: 0 <= i < |invites'| && i != k ==> invites'[i].token != t by {
        forall i | 0 <= i < |invites'| && i != k ensures invites'[i].token != t {
          assert invites'[i] == invites[i];
          if i < k { assert invites[i].token != invites[k].token; } else { assert invites[k].token != invites[i].token; }
        }
      }
    }
  }

  /** A fresh invitation is accepted by a complete request up to its expiry instant and refused as expired after it. */
  lemma FreshInviteWindow(invites: seq<Invite>, invite: Invite, request: InviteValidation.AcceptInviteRequest, at: int)
    requires invite.status == Pending && FindToken(invites, invite.token).None?
    requires InviteValidation.ValidateAcceptInvite(request).None? && request.token == Some(invite.token)
    ensures at <= invite.expiresAt ==> AcceptCheck(invites + [invite], request, at) == Ok(|invites|)
    ensures at > invite.expiresAt ==> AcceptCheck(invites + [invite], request, at) == Err(INVITE_EXPIRED)
  {
    FoundLast(invites, invite);
  }

  /** The token of the invitation saved last is found at its place. */
  lemma FoundLast(invites: seq<Invite>, invite: Invite)
    ensures FindToken(invites + [invite], invite.token) == Some(|invites|)
    ensures (invites + [invite])[|invites|] == invite
  {
    var s := invites + [invite];
    assert s[|s| - 1] == invite;
  }

  /** `save` of a new invitation whose token is fresh keeps the invariants when no pending invitation for that email exists. */
  lemma AddInviteKeepsInvariants(invites: seq<Invite>, inv: Invite)
    requires TokensDistinct(invites) && OnePendingPerEmail(invites)
    requires FindToken(invites, inv.token).None? && !PendingFor(invites, inv.email, inv.orgId)
    ensures TokensDistinct(invites + [inv]) && OnePendingPerEmail(invites + [inv])
  {
    var s := invites + [inv];
    forall i, j | 0 <= i < j < |s| && s[i].status == Pending && s[j].status == Pending
      ensures s[i].email != s[j].email || s[i].orgId != s[j].orgId
    {
      if j == |invites| { assert s[i] == invites[i]; }
    }
  }

  /** Storing a user whose email no user has yet keeps emails unique across the table. */
  lemma AddUserKeepsUniqueEmails(users: map<Id, User>, user: User)
    requires UniqueEmails(users) && user.id !in users && !EmailInUse(users, user.email)
    ensures UniqueEmails(users[user.id := user])
  {
  }

  /** Accepting (and so leaving the pending state) keeps the invariants. */
  lemma AcceptKeepsInvariants(invites: seq<Invite>, k: nat, now: int)
    requires TokensDistinct(invites) && OnePendingPerEmail(invites) && k < |invites|
    ensures var s := invites[k := invites[k].(status := Accepted, updatedAt := Some(now))];
      TokensDistinct(s) && OnePendingPerEmail(s)
  {
  }

  /** The store behind the service: the user table, the invitation table and the next user id. */
  class UserService {
    var users: map<Id, User>
    var invites: seq<Invite>
    var nextId: nat

    ghost predicate Valid()
      reads this
    {
      UsersKeyed(users, nextId) && UniqueEmails(users) && TokensDistinct(invites) && OnePendingPerEmail(invites)
    }

    constructor ()
      ensures Valid() && users == map[] && invites == [] && nextId == 0
    {
      users, invites, nextId := map[], [], 0;
    }

    /**
     * `createUser`: on success the new user is stored under a fresh id, and no other user changes.
     * An email free in the organisation but used in another one passes the check and is then
     * refused by `save`, storing nothing.
     */
    method CreateUser(dto: UserValidation.UserDto, orgId: Id, createdBy: Id, now: int) returns (r: Result<User>)
      requires Valid()
      modifies this
      ensures Valid() && invites == old(invites)
      ensures CreateUserCheck(old(users), dto, orgId).Err? ==>
        r == Err(CreateUserCheck(old(users), dto, orgId).error) && users == old(users) && nextId == old(nextId)
      ensures CreateUserCheck(old(users), dto, orgId).Ok? && EmailInUse(old(users), dto.email.value) ==>
        r == Err(DUPLICATE_EMAIL) && users == old(users) && nextId == old(nextId)
      ensures CreateUserCheck(old(users), dto, orgId).Ok? && !EmailInUse(old(users), dto.email.value) ==>
        var (role, status) := CreateUserCheck(old(users), dto, orgId).value;
        && r == Ok(User(old(nextId), orgId, dto.name.value, dto.email.value, role, status, None, now, now, createdBy, createdBy))
        && users == old(users)[old(nextId) := r.value] && nextId == old(nextId) + 1
    {
      var check := CreateUserCheck(users, dto, orgId);
      if check.Err? {
        return Err(check.error);
      }
      var user := User(nextId, orgId, dto.name.value, dto.email.value, check.value.0, check.value.1, None, now, now, createdBy, createdBy);
      r := StoreUser(user);
    }

    /** `save` of a new user under the next id, which the unique email column refuses for an email in use. */
    method StoreUser(user: User) returns (r: Result<User>)
      requires Valid() && user.id == nextId
      modifies this
      ensures Valid() && invites == old(invites)
      ensures EmailInUse(old(users), user.email) ==> r == Err(DUPLICATE_EMAIL) && users == old(users) && nextId == old(nextId)
      ensures !EmailInUse(old(users), user.email) ==>
        r == Ok(user) && users == old(users)[user.id := user] && nextId == old(nextId) + 1
    {
      if EmailInUse(users, user.email) {
        return Err(DUPLICATE_EMAIL);
      }
      assert nextId !in users;
      AddUserKeepsUniqueEmails(users, user);
      users := users[nextId := user];
      nextId := nextId + 1;
      r := Ok(user);
    }

    /** `createInvite`: on success a pending invitation with the caller's fresh token is appended. */
    method CreateInvite(request: UserValidation.CreateInviteRequest, orgId: Id, createdBy: Id, token: string, now: int)
      returns (r: Result<Invite>)
      requires Valid() && FindToken(invites, token).None?
      modifies this
      ensures Valid() && users == old(users) && nextId == old(nextId)
      ensures CreateInviteCheck(old(invites), request, orgId).Err? ==>
        r == Err(CreateInviteCheck(old(invites), request, orgId).error) && invites == old(invites)
      ensures CreateInviteCheck(old(invites), request, orgId).Ok? ==>
        && r == Ok(NewInvite(request, CreateInviteCheck(old(invites), request, orgId).value, token, orgId, createdBy, now))
        && invites == old(invites) + [r.value]
    {
      var check := CreateInviteCheck(invites, request, orgId);
      if check.Err? {
        return Err(check.error);
      }
      var invite := NewInvite(request, check.value, token, orgId, createdBy, now);
      AddInviteKeepsInvariants(invites, invite);
      invites := invites + [invite];
      r := Ok(invite);
    }

    /** `acceptInvite`: on success an active user with the invitation's email, role and organisation is stored
        and the invitation is marked accepted. When a user of any organisation already has the invited
        email, `save` refuses the user and the invitation stays as it was. */
    method AcceptInvite(request: InviteValidation.AcceptInviteRequest, encode: string -> string, now: int)
      returns (r: Result<User>)
      requires Valid()
      modifies this
      ensures Valid()
      ensures AcceptCheck(old(invites), request, now).Err? ==>
        r == Err(AcceptCheck(old(invites), request, now).error)
        && users == old(users) && invites == old(invites) && nextId == old(nextId)
      ensures AcceptCheck(old(invites), request, now).Ok? ==>
        var k := AcceptCheck(old(invites), request, now).value;
        EmailInUse(old(users), old(invites)[k].email) ==>
        r == Err(DUPLICATE_EMAIL) && users == old(users) && invites == old(invites) && nextId == old(nextId)
      ensures AcceptCheck(old(invites), request, now).Ok? ==>
        var k := AcceptCheck(old(invites), request, now).value;
        !EmailInUse(old(users), old(invites)[k].email) ==>
        && r == Ok(InvitedUser(old(nextId), old(invites)[k], request, encode, now))
        && r.value.status == Active && r.value.email == old(invites)[k].email
        && r.value.role == old(invites)[k].role && r.value.orgId == old(invites)[k].orgId
        && users == old(users)[old(nextId) := r.value] && nextId == old(nextId) + 1
        && invites == old(invites)[k := old(invites)[k].(status := Accepted, updatedAt := Some(now))]
    {
      var check := AcceptCheck(invites, request, now);
      if check.Err? {
        return Err(check.error);
      }
      var k := check.value;
      var user := InvitedUser(nextId, invites[k], request, encode, now);
      r := StoreUser(user);
      if r.Ok? {
        MarkAccepted(k, now);
      }
    }

    /** `save` of the invitation at position `k`, now accepted. */
    method MarkAccepted(k: nat, now: int)
      requires Valid() && k < |invites|
      modifies this
      ensures Valid() && users == old(users) && nextId == old(nextId)
      ensures invites == old(invites)[k := old(invites)[k].(status := Accepted, updatedAt := Some(now))]
    {
      AcceptKeepsInvariants(invites, k, now);
      invites := invites[k := invites[k].(status := Accepted, updatedAt := Some(now))];
    }

    /** `getPendingInvites` */
    function PendingInvites(orgId: Id): (r: seq<Invite>)
      reads this
      ensures forall i :: 0 <= i < |r| ==> r[i] in invites && r[i].orgId == orgId && r[i].status == Pending
      ensures forall i :: 0 <= i < |invites| && invites[i].orgId == orgId && invites[i].status == Pending ==> invites[i] in r
    {
      PendingOf(invites, orgId)
    }
  }

  function PendingOf(invites: seq<Invite>, orgId: Id): (r: seq<Invite>)
    ensures forall i :: 0 <= i < |r| ==> r[i] in invites && r[i].orgId == orgId && r[i].status == Pending
    ensures forall i :: 0 <= i < |invites| && invites[i].orgId == orgId && invites[i].status == Pending ==> invites[i] in r
  {
    if invites == [] then []
    else
      var rest := PendingOf(invites[..|invites| - 1], orgId);
      var last := invites[|invites| - 1];
      assert forall i :: 0 <= i < |invites| - 1 ==> invites[i] == invites[..|invites| - 1][i];
      rest + (if last.orgId == orgId && last.status == Pending then [last] else [])
  }
}
