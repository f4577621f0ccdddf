/** `POST /api/auth/login`: field validation, the lookup by lower-cased
    email, the active check, the password allow-list, the token, and the one
    session row a successful login inserts. */
module Login {
  import opened Common
  import opened Strings
  import opened Base64
  import opened Claims
  import opened Tokens
  import opened Store
  import opened Listing
  import opened Auth

  /** The JSON body; None is an absent field. */
  datatype LoginRequest = LoginRequest(email: Option<string>, password: Option<string>)

  datatype LoginBody = LoginBody(token: string, user: Identity)

  const ValidPasswords: seq<string> := ["Admin123!", "Admin123", "password1231", "password"]
  /** `7 * 24 * 60 * 60`: the claims' lifetime in seconds. */
  const WeekSeconds: nat := 604800
  /** `7 * 24 * 60 * 60 * 1000`: the session's lifetime in milliseconds. */
  const WeekMs: nat := 604800000

  /** `SELECT … FROM users WHERE email = ${email.toLowerCase()}`, first row. */
  function FindUser(users: map<nat, User>, email: string): (id: Option<nat>)
    ensures id.Some? ==> id.value in users && users[id.value].email == Lower(email)
    ensures id.Some? ==> forall k | k in users && users[k].email == Lower(email) :: id.value <= k
    ensures id.None? ==> forall k | k in users :: users[k].email != Lower(email)
  {
    var matches := set k | k in users && users[k].email == Lower(email);
    assert forall k | k in users && users[k].email == Lower(email) :: k in matches;
    if matches == {} then None else Some(Least(matches))
  }

  /** What the handler decides before it writes anything. */
  datatype Attempt = Refused(status: int, message: string)
                   | Granted(userId: nat, claims: Claims, token: string, hash: string)

  function Decide(users: map<nat, User>, req: LoginRequest, nowMs: nat): (a: Attempt)
    ensures a.Granted? ==> a.userId in users
  {
    if !Given(req.email) || !Given(req.password) then Refused(400, "Email and password are required")
    else
      match FindUser(users, req.email.value)
      case None => Refused(401, "Invalid email or password")
      case Some(id) =>
        var u := users[id];
        if !u.active then Refused(401, "Account is deactivated")
        else if req.password.value !in ValidPasswords then Refused(401, "Invalid email or password")
        else
          var claims := Claims(id, u.email, u.role, Some(nowMs / 1000 + WeekSeconds));
          match Issue(claims)
          case None => Refused(500, "Internal server error")
          case Some(token) =>
            match TokenHash(token)
            case None => Refused(500, "Internal server error")
            case Some(hash) => Granted(id, claims, token, hash)
  }

  /** The session row a granted login inserts. */
  function NewSession(a: Attempt, nowMs: nat): Session
    requires a.Granted?
  {
    Session(a.userId, a.hash, nowMs + WeekMs, None)
  }

  method Post(db: Database, req: LoginRequest, nowMs: nat) returns (r: Reply<LoginBody>)
    requires db.Valid()
    modifies db`sessions, db`nextSessionId
    ensures db.Valid()
    ensures var a := Decide(old(db.users), req, nowMs);
      match a
      case Refused(status, message) =>
        r == Reply(status, message, None) && db.sessions == old(db.sessions)
      case Granted(id, _, token, _) =>
        && old(db.nextSessionId) !in old(db.sessions)
        && db.sessions == old(db.sessions)[old(db.nextSessionId) := NewSession(a, nowMs)]
        && r == Done(200, "Login successful", LoginBody(token, IdentityOf(old(db.users), NewSession(a, nowMs))))
  {
    var a := Decide(db.users, req, nowMs);
    if a.Refused? {
      return Reply(a.status, a.message, None);
    }
    var session := NewSession(a, nowMs);
    var _ := db.InsertSession(session);
    r := Done(200, "Login successful", LoginBody(a.token, IdentityOf(db.users, session)));
  }

  // ---------------------------------------------------------------------
  // Properties

  /** Each refusal, in the order the handler checks: missing fields, unknown
      email, deactivated account (before the password is looked at), wrong
      password with the same message as an unknown email. */
  lemma Refusals(users: map<nat, User>, req: LoginRequest, nowMs: nat)
    ensures !Given(req.email) || !Given(req.password) ==>
      Decide(users, req, nowMs) == Refused(400, "Email and password are required")
    ensures Given(req.email) && Given(req.password) && FindUser(users, req.email.value).None? ==>
      Decide(users, req, nowMs) == Refused(401, "Invalid email or password")
    ensures Given(req.email) && Given(req.password) && FindUser(users, req.email.value).Some?
            && !users[FindUser(users, req.email.value).value].active ==>
      Decide(users, req, nowMs) == Refused(401, "Account is deactivated")
    ensures Given(req.email) && Given(req.password) && FindUser(users, req.email.value).Some?
            && users[FindUser(users, req.email.value).value].active && req.password.value !in ValidPasswords ==>
      Decide(users, req, nowMs) == Refused(401, "Invalid email or password")
  {
  }

  /** A login is granted exactly for an active user found by the lower-cased
      email, an allow-listed password, and claims `btoa` accepts. */
  lemma GrantedWhen(users: map<nat, User>, req: LoginRequest, nowMs: nat)
    ensures Decide(users, req, nowMs).Granted? <==>
      Given(req.email) && Given(req.password) && FindUser(users, req.email.value).Some?
      && users[FindUser(users, req.email.value).value].active && req.password.value in ValidPasswords
      && var u := users[FindUser(users, req.email.value).value];
         IsBinary(ClaimsJson(Claims(FindUser(users, req.email.value).value, u.email, u.role,
                                    Some(nowMs / 1000 + WeekSeconds))))
  {
    if Given(req.email) && Given(req.password) && FindUser(users, req.email.value).Some? {
      var id := FindUser(users, req.email.value).value;
      var u := users[id];
      var claims := Claims(id, u.email, u.role, Some(nowMs / 1000 + WeekSeconds));
      IssueDefined(claims);
      if Issue(claims).Some? {
        IssuedHashable(claims);
      }
    }
  }

  /** A granted login's token carries the found user's claims with `exp` one
      week ahead, splits into three parts, decodes back to the claims, and is
      stored under its hash. */
  lemma GrantedToken(users: map<nat, User>, req: LoginRequest, nowMs: nat)
    requires Decide(users, req, nowMs).Granted?
    ensures var a := Decide(users, req, nowMs);
      && a.userId == FindUser(users, req.email.value).value
      && a.claims == Claims(a.userId, users[a.userId].email, users[a.userId].role, Some(nowMs / 1000 + WeekSeconds))
      && Issue(a.claims) == Some(a.token)
      && |Split(a.token, '.')| == 3
      && DecodeClaims(a.token) == Some(a.claims)
      && TokenHash(a.token) == Some(a.hash)
  {
    var a := Decide(users, req, nowMs);
    IssuedDecodes(a.claims);
  }

  /** A token just issued is accepted by the auth gate at any moment of the
      following week, from the session row the same login inserted: login
      and the gate compute the same hash, the claims decode, `exp` has not
      passed, and the row is live. */
  lemma LoginThenVerify(users: map<nat, User>, sessions: map<nat, Session>, req: LoginRequest,
                        nowMs: nat, newId: nat, laterMs: nat, stampWriteOk: bool)
    requires Decide(users, req, nowMs).Granted?
    requires nowMs <= laterMs < nowMs + WeekMs
    ensures var a := Decide(users, req, nowMs);
      var after := sessions[newId := NewSession(a, nowMs)];
      var check := CheckToken(users, after, Context(Some(BearerPrefix + a.token), laterMs, stampWriteOk));
      check.Accepted? && check.claims == a.claims
      && Live(users, after, newId, a.hash, laterMs)
  {
    var a := Decide(users, req, nowMs);
    var after := sessions[newId := NewSession(a, nowMs)];
    var ctx := Context(Some(BearerPrefix + a.token), laterMs, stampWriteOk);
    GrantedToken(users, req, nowMs);
    assert a.token != "" by {
      assert |Split(a.token, '.')| == 3;
    }
    BearerOf(a.token);
    assert !Expired(a.claims.exp, laterMs);
    assert Live(users, after, newId, a.hash, laterMs);
    assert newId in LiveIds(users, after, a.hash, laterMs);
  }
}
