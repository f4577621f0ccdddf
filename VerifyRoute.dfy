/** `GET /api/auth/verify`: the same checks as the auth gate, each refusal
    reported with its own message, every failure inside the inner `try`
    (including the `last_used_at` write) reported as "Invalid token", and on
    success the session's user with the email of the token's claims. */
module VerifyRoute {
  import opened Common
  import opened Claims
  import opened Store
  import opened Auth

  datatype VerifyBody = VerifyBody(valid: bool, user: Identity)

  function RejectionMessage(why: Rejection): string
  {
    match why
    case NoToken => "No valid token provided"
    case Malformed => "Invalid token"
    case TokenExpired => "Token expired"
    case NoSession => "Invalid or expired session"
  }

  /** The reply of the route for the given tables and request. */
  function Outcome(users: map<nat, User>, sessions: map<nat, Session>, ctx: Context): (r: Reply<VerifyBody>)
    ensures r.status == 200 || r.status == 401
  {
    match CheckToken(users, sessions, ctx)
    case Rejected(why) => Fail(401, RejectionMessage(why))
    case Accepted(id, claims) =>
      if !ctx.stampWriteOk then Fail(401, "Invalid token")
      else Done(200, "", VerifyBody(true, IdentityOf(users, sessions[id]).(email := claims.email)))
  }

  method Get(db: Database, ctx: Context) returns (r: Reply<VerifyBody>)
    requires db.Valid()
    modifies db`sessions
    ensures db.Valid()
    ensures r == Outcome(old(db.users), old(db.sessions), ctx)
    ensures db.sessions == Stamped(old(db.users), old(db.sessions), ctx)
  {
    var check := CheckToken(db.users, db.sessions, ctx);
    if check.Rejected? {
      return Fail(401, RejectionMessage(check.why));
    }
    if !ctx.stampWriteOk {
      return Fail(401, "Invalid token");
    }
    var session := db.sessions[check.sessionId];
    db.sessions := db.sessions[check.sessionId := session.(lastUsedAtMs := Some(ctx.nowMs))];
    r := Done(200, "", VerifyBody(true, IdentityOf(db.users, session).(email := check.claims.email)));
  }

  // ---------------------------------------------------------------------
  // Properties

  /** The route and the auth gate accept the same requests; on acceptance
      the route reports the gate's user except for the email, which comes
      from the token's claims. */
  lemma AgreesWithGate(users: map<nat, User>, sessions: map<nat, Session>, ctx: Context)
    ensures Outcome(users, sessions, ctx).IsSuccess() <==> Authenticate(users, sessions, ctx).Some?
    ensures Outcome(users, sessions, ctx).IsSuccess() ==>
      var user := Outcome(users, sessions, ctx).body.value.user;
      var gate := Authenticate(users, sessions, ctx).value;
      user == gate.(email := CheckToken(users, sessions, ctx).claims.email)
      && Outcome(users, sessions, ctx).body.value.valid
  {
  }

  /** Each refusal's message; a failed stamp reads as a bad token. */
  lemma Messages(users: map<nat, User>, sessions: map<nat, Session>, ctx: Context)
    ensures CheckToken(users, sessions, ctx) == Rejected(NoToken) ==>
      Outcome(users, sessions, ctx) == Fail(401, "No valid token provided")
    ensures CheckToken(users, sessions, ctx) == Rejected(Malformed) ==>
      Outcome(users, sessions, ctx) == Fail(401, "Invalid token")
    ensures CheckToken(users, sessions, ctx) == Rejected(TokenExpired) ==>
      Outcome(users, sessions, ctx) == Fail(401, "Token expired")
    ensures CheckToken(users, sessions, ctx) == Rejected(NoSession) ==>
      Outcome(users, sessions, ctx) == Fail(401, "Invalid or expired session")
    ensures CheckToken(users, sessions, ctx).Accepted? && !ctx.stampWriteOk ==>
      Outcome(users, sessions, ctx) == Fail(401, "Invalid token")
  {
  }
}
