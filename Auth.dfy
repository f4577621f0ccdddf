/** The auth gate every handler passes through (`utils/auth.js`): reading
    the bearer token, the three-part and expiry checks, the lookup of a live
    session of an active user by the token's hash, the `last_used_at` stamp,
    and the role checks `hasRole`, `hasMinimumRole` and `requireAuth` with
    the `PERMISSIONS` role bundles. */
module Auth {
  import opened Common
  import opened Strings
  import opened Claims
  import opened Tokens
  import opened Store
  import opened Listing

  /** The user object `verifyToken` returns; `fullName` is FullName below. */
  datatype Identity = Identity(id: nat, email: string, role: string, firstName: string,
                               lastName: string, employeeId: string)

  function FullName(u: Identity): string
  {
    u.firstName + " " + u.lastName
  }

  /** What a request brings to the gate: its `Authorization` header, the
      current time, and whether the `last_used_at` write succeeds. */
  datatype Context = Context(authorization: Option<string>, nowMs: nat, stampWriteOk: bool)

  /** Why a token is turned away, in the order the checks run. `Malformed`
      covers a token that is not three parts, claims that do not decode, and
      a token `btoa` refuses when hashing. */
  datatype Rejection = NoToken | Malformed | TokenExpired | NoSession

  datatype Check = Rejected(why: Rejection) | Accepted(sessionId: nat, claims: Claims)

  /** A row the session query returns: `token_hash = hash`, `expires_at >
      NOW()`, and the joined user exists and `is_active`. */
  predicate Live(users: map<nat, User>, sessions: map<nat, Session>, id: nat, hash: string, nowMs: int)
  {
    id in sessions && sessions[id].tokenHash == hash && sessions[id].expiresAtMs > nowMs
    && sessions[id].userId in users && users[sessions[id].userId].active
  }

  function LiveIds(users: map<nat, User>, sessions: map<nat, Session>, hash: string, nowMs: int): set<nat>
  {
    set id | id in sessions && Live(users, sessions, id, hash, nowMs)
  }

  /** The checks of `verifyToken` up to the stamp, in the source's order; of
      several live rows, `sessions[0]` is taken to be the one with the least id. */
  function CheckToken(users: map<nat, User>, sessions: map<nat, Session>, ctx: Context): (c: Check)
    ensures c.Accepted? ==>
              (BearerToken(ctx.authorization).Some?
               && TokenHash(BearerToken(ctx.authorization).value).Some?
               && c.sessionId in LiveIds(users, sessions, TokenHash(BearerToken(ctx.authorization).value).value, ctx.nowMs))
  {
    match BearerToken(ctx.authorization)
    case None => Rejected(NoToken)
    case Some(token) =>
      match DecodeClaims(token)
      case None => Rejected(Malformed)
      case Some(claims) =>
        if Expired(claims.exp, ctx.nowMs) then Rejected(TokenExpired)
        else
          match TokenHash(token)
          case None => Rejected(Malformed)
          case Some(hash) =>
            var live := LiveIds(users, sessions, hash, ctx.nowMs);
            if live == {} then Rejected(NoSession) else Accepted(Least(live), claims)
  }

  /** The user of a live session, as the joined row reports it. */
  function IdentityOf(users: map<nat, User>, s: Session): Identity
    requires s.userId in users
  {
    var u := users[s.userId];
    Identity(s.userId, u.email, u.role, u.firstName, u.lastName, u.employeeId)
  }

  /** `verifyToken`'s result: the session's user, or None for every refusal
      and for a failed stamp write (the catch turns it into null). */
  function Authenticate(users: map<nat, User>, sessions: map<nat, Session>, ctx: Context): (u: Option<Identity>)
    ensures u.Some? ==> CheckToken(users, sessions, ctx).Accepted? && ctx.stampWriteOk
  {
    match CheckToken(users, sessions, ctx)
    case Rejected(_) => None
    case Accepted(id, _) => if ctx.stampWriteOk then Some(IdentityOf(users, sessions[id])) else None
  }

  /** The session table after `verifyToken`: only the chosen row changes,
      and only its `last_used_at`. */
  function Stamped(users: map<nat, User>, sessions: map<nat, Session>, ctx: Context): map<nat, Session>
  {
    match CheckToken(users, sessions, ctx)
    case Rejected(_) => sessions
    case Accepted(id, _) =>
      if ctx.stampWriteOk then sessions[id := sessions[id].(lastUsedAtMs := Some(ctx.nowMs))] else sessions
  }

  method VerifyToken(db: Database, ctx: Context) returns (user: Option<Identity>)
    requires db.Valid()
    modifies db`sessions
    ensures db.Valid()
    ensures user == Authenticate(old(db.users), old(db.sessions), ctx)
    ensures db.sessions == Stamped(old(db.users), old(db.sessions), ctx)
  {
    var token := BearerToken(ctx.authorization);
    if token.None? {
      return None;
    }
    var claims := DecodeClaims(token.value);
    if claims.None? {
      return None;
    }
    if Expired(claims.value.exp, ctx.nowMs) {
      return None;
    }
    var hash := TokenHash(token.value);
    if hash.None? {
      return None;
    }
    var live := LiveIds(db.users, db.sessions, hash.value, ctx.nowMs);
    if live == {} {
      return None;
    }
    var id := Least(live);
    if !ctx.stampWriteOk {
      return None;
    }
    var session := db.sessions[id];
    db.sessions := db.sessions[id := session.(lastUsedAtMs := Some(ctx.nowMs))];
    user := Some(IdentityOf(db.users, session));
  }

  // ---------------------------------------------------------------------
  // Roles

  /** The second argument of `hasRole` / `requireAuth`: null, an array of
      roles, or a single role. */
  datatype Allowed = AnyRole | OneOf(roles: seq<string>) | Exactly(role: string)

  /** `allowedRoles` is truthy: null and the empty string are not; every
      array is, even an empty one. */
  predicate Restricts(allowed: Allowed)
  {
    allowed.OneOf? || (allowed.Exactly? && allowed.role != "")
  }

  predicate HasRole(user: Option<Identity>, allowed: Allowed)
  {
    user.Some? && user.value.role != "" &&
    match allowed
    case AnyRole => false
    case OneOf(roles) => user.value.role in roles
    case Exactly(role) => user.value.role == role
  }

  /** The names a plain object inherits from `Object.prototype`: looking
      one of them up in `roleHierarchy` yields a function or an object, not
      undefined, so `??` keeps it and the numeric comparison is false. */
  const InheritedNames: set<string> :=
    {"constructor", "hasOwnProperty", "isPrototypeOf", "propertyIsEnumerable", "toLocaleString",
     "toString", "valueOf", "__proto__", "__defineGetter__", "__defineSetter__",
     "__lookupGetter__", "__lookupSetter__"}

  /** `roleHierarchy[role] ?? fallback`: a number, or None where the lookup
      finds an inherited member that compares as NaN. */
  function Level(role: string, fallback: int): Option<int>
  {
    if role == "employee" then Some(0)
    else if role == "accountant" then Some(1)
    else if role == "manager" then Some(2)
    else if role == "admin" then Some(3)
    else if role in InheritedNames then None
    else Some(fallback)
  }

  predicate IsKnownRole(role: string)
  {
    role in {"employee", "accountant", "manager", "admin"}
  }

  predicate HasMinimumRole(user: Option<Identity>, minimumRole: string)
  {
    user.Some? && user.value.role != "" &&
    var have := Level(user.value.role, -1);
    var need := Level(minimumRole, 999);
    have.Some? && need.Some? && have.value >= need.value
  }

  const ViewAllExpenses: seq<string> := ["admin", "manager", "accountant"]
  const ApproveExpenses: seq<string> := ["admin", "manager"]
  const SubmitExpenses: seq<string> := ["admin", "manager", "accountant", "employee"]
  const ManageCards: seq<string> := ["admin"]
  const ViewReports: seq<string> := ["admin", "manager", "accountant"]
  const AssignJobs: seq<string> := ["admin", "manager"]
  const AcceptJobs: seq<string> := ["employee"]
  const ClockInOut: seq<string> := ["employee"]
  const ViewAllTimesheets: seq<string> := ["admin", "manager"]
  const FillSurveys: seq<string> := ["employee"]
  const ManageSurveys: seq<string> := ["admin", "manager"]
  const ViewReminders: seq<string> := ["admin", "manager", "accountant", "employee"]
  const ManageReminders: seq<string> := ["admin", "manager", "accountant"]

  /** `requireAuth`'s decision once `verifyToken` has answered: 401 without
      a user, 403 when a truthy `allowedRoles` does not hold the user's
      role, and the user otherwise. */
  function Admit(user: Option<Identity>, allowed: Allowed): (r: Reply<Identity>)
    ensures r.IsSuccess() <==> user.Some? && (!Restricts(allowed) || HasRole(user, allowed))
    ensures r.IsSuccess() ==> r.body == user
    ensures r.status == 401 <==> user.None?
    ensures r.status == 403 <==> user.Some? && Restricts(allowed) && !HasRole(user, allowed)
  {
    if user.None? then Fail(401, "Authentication required")
    else if Restricts(allowed) && !HasRole(user, allowed) then Fail(403, "Insufficient permissions")
    else Done(200, "", user.value)
  }

  method RequireAuth(db: Database, ctx: Context, allowed: Allowed) returns (r: Reply<Identity>)
    requires db.Valid()
    modifies db`sessions
    ensures db.Valid()
    ensures r == Admit(Authenticate(old(db.users), old(db.sessions), ctx), allowed)
    ensures db.sessions == Stamped(old(db.users), old(db.sessions), ctx)
  {
    var user := VerifyToken(db, ctx);
    r := Admit(user, allowed);
  }

  // ---------------------------------------------------------------------
  // Properties

  /** What an accepted token has been through: a "Bearer " header with a
      non-empty three-part token whose claims decode and have not expired,
      and a live session row for the token's hash with no live row of a
      smaller id. */
  lemma AcceptedToken(users: map<nat, User>, sessions: map<nat, Session>, ctx: Context, token: string)
    requires BearerToken(ctx.authorization) == Some(token)
    requires CheckToken(users, sessions, ctx).Accepted?
    ensures ctx.authorization == Some(BearerPrefix + token) && token != ""
    ensures |Split(token, '.')| == 3 && DecodeClaims(token) == Some(CheckToken(users, sessions, ctx).claims)
    ensures !Expired(CheckToken(users, sessions, ctx).claims.exp, ctx.nowMs)
    ensures TokenHash(token).Some?
    ensures var id := CheckToken(users, sessions, ctx).sessionId;
      Live(users, sessions, id, TokenHash(token).value, ctx.nowMs)
      && forall other | other in LiveIds(users, sessions, TokenHash(token).value, ctx.nowMs) :: id <= other
  {
    var c := CheckToken(users, sessions, ctx);
    var claims := DecodeClaims(token);
    assert claims.Some?;
    assert !Expired(claims.value.exp, ctx.nowMs);
    var hash := TokenHash(token);
    assert hash.Some?;
    var live := LiveIds(users, sessions, hash.value, ctx.nowMs);
    assert c == Accepted(Least(live), claims.value);
  }

  /** The user `verifyToken` returns is the accepted row's user, with the
      role and active flag stored for it, whatever the claims say. */
  lemma AuthenticatedUser(users: map<nat, User>, sessions: map<nat, Session>, ctx: Context)
    requires Authenticate(users, sessions, ctx).Some?
    ensures var id := CheckToken(users, sessions, ctx).sessionId;
      var u := Authenticate(users, sessions, ctx).value;
      id in sessions && u.id == sessions[id].userId && u.id in users
      && u.role == users[u.id].role && u.email == users[u.id].email && users[u.id].active
  {
  }

  /** The stamp touches only the accepted row's `last_used_at`. */
  lemma StampOnlyTouchesLastUsed(users: map<nat, User>, sessions: map<nat, Session>, ctx: Context)
    ensures Stamped(users, sessions, ctx).Keys == sessions.Keys
    ensures forall id | id in sessions ::
      var s := Stamped(users, sessions, ctx)[id];
      s.userId == sessions[id].userId && s.tokenHash == sessions[id].tokenHash
      && s.expiresAtMs == sessions[id].expiresAtMs
      && (s != sessions[id] ==> CheckToken(users, sessions, ctx) == Accepted(id, CheckToken(users, sessions, ctx).claims))
  {
  }

  /** `hasMinimumRole` is reflexive on the four known roles. */
  lemma MinimumRoleReflexive(u: Identity)
    requires IsKnownRole(u.role)
    ensures HasMinimumRole(Some(u), u.role)
  {
  }

  /** Raising the user's role never loses a minimum it met. */
  lemma MinimumRoleMonotone(u: Identity, higher: string, minimumRole: string)
    requires IsKnownRole(u.role) && IsKnownRole(higher)
    requires Level(u.role, -1).value <= Level(higher, -1).value
    requires HasMinimumRole(Some(u), minimumRole)
    ensures HasMinimumRole(Some(u.(role := higher)), minimumRole)
  {
  }

  /** An unknown user role never meets a known minimum, and an unknown
      minimum is met by nobody. */
  lemma MinimumRoleUnknown(u: Identity, minimumRole: string)
    ensures !IsKnownRole(u.role) && IsKnownRole(minimumRole) ==> !HasMinimumRole(Some(u), minimumRole)
    ensures !IsKnownRole(minimumRole) ==> !HasMinimumRole(Some(u), minimumRole)
  {
  }

  /** The expense bundles are nested, and each one is exactly a minimum
      level of the hierarchy. */
  lemma ExpenseBundles(u: Identity)
    ensures forall r | r in ApproveExpenses :: r in ViewAllExpenses
    ensures forall r | r in ViewAllExpenses :: r in SubmitExpenses
    ensures HasRole(Some(u), OneOf(ApproveExpenses)) <==> HasMinimumRole(Some(u), "manager")
    ensures HasRole(Some(u), OneOf(ViewAllExpenses)) <==> HasMinimumRole(Some(u), "accountant")
    ensures HasRole(Some(u), OneOf(SubmitExpenses)) <==> HasMinimumRole(Some(u), "employee")
  {
  }
}
