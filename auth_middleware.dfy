/** The access guards of backend/src/middleware/auth.ts. Each guard is a decision (stop the
    request with a reply, or pass it on) specified by a function, and a method that carries the
    decision out on the request object: setting `req.user`, writing the reply, calling `next`. */
module AuthMiddleware {
  import opened Wrappers
  import opened Text
  import opened Types
  import opened Seqs
  import opened Store
  import UserModel
  import Jwt

  /** The part of an Express request and response the guards touch. */
  class Request {
    /** The `Authorization` header, when one was sent. */
    var authorization: Option<string>
    /** `req.user`, once a guard has attached it. */
    var user: Option<PublicUser>
    /** The reply a guard sent, when one did. */
    var response: Option<Reply>
    /** How many times `next()` has been called. */
    var nextCalls: nat

    constructor (authorization: Option<string>)
      ensures this.authorization == authorization
      ensures user.None? && response.None? && nextCalls == 0
    {
      this.authorization := authorization;
      user, response, nextCalls := None, None, 0;
    }
  }

  // ---- bearer credentials (section 2.1 of RFC 6750) ----

  const Scheme := "Bearer "

  /** The credential of an `Authorization: Bearer <token>` header: the header without its first
      seven characters. A missing header, an empty one, or one with any other scheme has none. */
  function BearerCredential(header: Option<string>): (r: Option<Token>)
    ensures r.Some? <==> header.Some? && StartsWith(header.value, Scheme)
    ensures r.Some? ==> r.value == header.value[7..] && header.value == Scheme + r.value
  {
    if header.Some? && StartsWith(header.value, Scheme) then
      assert header.value == header.value[..7] + header.value[7..];
      Some(header.value[7..])
    else None
  }

  /** The credential read back from a header built around a token is that token. */
  lemma BearerRoundTrip(t: Token)
    ensures BearerCredential(Some(Scheme + t)) == Some(t)
  {
    assert (Scheme + t)[..|Scheme|] == Scheme;
    assert (Scheme + t)[7..] == t;
  }

  // ---- authenticate ----

  /** What `authenticate` decides: the user to attach, or the reply that ends the request. */
  datatype Verdict = Admit(user: PublicUser) | Deny(reply: Reply)

  /** `authenticate` against the user collection `us`: the bearer token must verify as an access
      token at `nowMs`, and the user it names must still exist; the user attached is the stored
      one, without password or refresh tokens. A failed verification throws, and the handler
      answers with its catch-all message. */
  function Authentication(us: seq<User>, cfg: Jwt.JwtConfig, header: Option<string>, nowMs: Millis): (r: Verdict)
    ensures BearerCredential(header).None? ==> r == Deny(Reply(401, "Access token is required"))
    ensures BearerCredential(header).Some? && Jwt.VerifyAccessToken(cfg, BearerCredential(header).value, nowMs).Err? ==>
              r == Deny(Reply(401, "Invalid or expired token"))
    ensures r.Admit? <==>
              && BearerCredential(header).Some?
              && Jwt.VerifyAccessToken(cfg, BearerCredential(header).value, nowMs).Ok?
              && exists i :: 0 <= i < |us| && us[i].id == Jwt.VerifyAccessToken(cfg, BearerCredential(header).value, nowMs).value.userId
    ensures r.Deny? ==> r.reply.status == 401
    ensures r.Admit? ==>
              exists i :: 0 <= i < |us|
                && us[i].id == Jwt.VerifyAccessToken(cfg, BearerCredential(header).value, nowMs).value.userId
                && r.user == UserModel.ToJson(us[i])
  {
    match BearerCredential(header)
    case None => Deny(Reply(401, "Access token is required"))
    case Some(token) =>
      match Jwt.VerifyAccessToken(cfg, token, nowMs)
      case Err(_) => Deny(Reply(401, "Invalid or expired token"))
      case Ok(claims) =>
        match FirstIndex(us, ById(claims.userId))
        case None => Deny(Reply(401, "User not found"))
        case Some(i) => Admit(UserModel.ToJson(us[i]))
  }

  /** An access token issued to a stored user, presented before it expires, admits that user as
      the collection holds it now (its present role and subscription, not those in the token). */
  lemma AuthenticateIssuedToken(us: seq<User>, cfg: Jwt.JwtConfig, k: nat, issuedMs: Millis, nowMs: Millis)
    requires UniqueUsers(us) && k < |us|
    requires Jwt.Seconds(nowMs) < Jwt.Seconds(issuedMs) + cfg.accessTtl
    ensures Authentication(us, cfg, Some(Scheme + Jwt.GenerateAccessToken(cfg, us[k], issuedMs)), nowMs) == Admit(UserModel.ToJson(us[k]))
  {
    BearerRoundTrip(Jwt.GenerateAccessToken(cfg, us[k], issuedMs));
    Jwt.AccessTokenVerifies(cfg, us[k], issuedMs, nowMs);
    FindByIdUnique(us, k);
  }

  /** Once the access token's lifetime is over it is refused with the catch-all message. */
  lemma AuthenticateExpiredToken(us: seq<User>, cfg: Jwt.JwtConfig, u: User, issuedMs: Millis, nowMs: Millis)
    requires Jwt.Seconds(issuedMs) + cfg.accessTtl <= Jwt.Seconds(nowMs)
    ensures Authentication(us, cfg, Some(Scheme + Jwt.GenerateAccessToken(cfg, u, issuedMs)), nowMs) == Deny(Reply(401, "Invalid or expired token"))
  {
    BearerRoundTrip(Jwt.GenerateAccessToken(cfg, u, issuedMs));
    Jwt.AccessTokenVerifies(cfg, u, issuedMs, nowMs);
  }

  /** With distinct secrets a refresh token is no access token. */
  lemma AuthenticateRefusesRefreshToken(us: seq<User>, cfg: Jwt.JwtConfig, u: User, issuedMs: Millis, nowMs: Millis)
    requires cfg.secret != cfg.refreshSecret
    ensures Authentication(us, cfg, Some(Scheme + Jwt.GenerateRefreshToken(cfg, u, issuedMs)), nowMs) == Deny(Reply(401, "Invalid or expired token"))
  {
    BearerRoundTrip(Jwt.GenerateRefreshToken(cfg, u, issuedMs));
    Jwt.TokensNotInterchangeable(cfg, u, issuedMs, nowMs);
  }

  /** A valid token whose user has since been deleted is refused as 'User not found'. */
  lemma AuthenticateDeletedUser(us: seq<User>, cfg: Jwt.JwtConfig, u: User, issuedMs: Millis, nowMs: Millis)
    requires Jwt.Seconds(nowMs) < Jwt.Seconds(issuedMs) + cfg.accessTtl
    requires forall i :: 0 <= i < |us| ==> us[i].id != u.id
    ensures Authentication(us, cfg, Some(Scheme + Jwt.GenerateAccessToken(cfg, u, issuedMs)), nowMs) == Deny(Reply(401, "User not found"))
  {
    BearerRoundTrip(Jwt.GenerateAccessToken(cfg, u, issuedMs));
    Jwt.AccessTokenVerifies(cfg, u, issuedMs, nowMs);
  }

  /** `authenticate`: on admission attaches the user and calls `next` once; otherwise replies and
      leaves `next` uncalled. */
  method Authenticate(req: Request, db: Database, cfg: Jwt.JwtConfig, nowMs: Millis)
    modifies req
    ensures req.authorization == old(req.authorization)
    ensures match Authentication(db.users, cfg, old(req.authorization), nowMs)
      case Admit(u) => req.user == Some(u) && req.nextCalls == old(req.nextCalls) + 1 && req.response == old(req.response)
      case Deny(reply) => req.response == Some(reply) && req.user == old(req.user) && req.nextCalls == old(req.nextCalls)
  {
    var token := BearerCredential(req.authorization);
    if token.None? {
      req.response := Some(Reply(401, "Access token is required"));
      return;
    }
    var claims := Jwt.VerifyAccessToken(cfg, token.value, nowMs);
    if claims.Err? {
      req.response := Some(Reply(401, "Invalid or expired token"));
      return;
    }
    var found := FirstIndex(db.users, ById(claims.value.userId));
    if found.None? {
      req.response := Some(Reply(401, "User not found"));
      return;
    }
    req.user := Some(UserModel.ToJson(db.users[found.value]));
    req.nextCalls := req.nextCalls + 1;
  }

  // ---- optionalAuth ----

  /** The user `optionalAuth` attaches: the one `authenticate` would admit, and none otherwise. */
  function OptionalUser(us: seq<User>, cfg: Jwt.JwtConfig, header: Option<string>, nowMs: Millis): (r: Option<PublicUser>)
    ensures r.Some? <==> Authentication(us, cfg, header, nowMs).Admit?
    ensures r.Some? ==> r.value == Authentication(us, cfg, header, nowMs).user
    ensures BearerCredential(header).None? ==> r.None?
  {
    match BearerCredential(header)
    case None => None
    case Some(token) =>
      match Jwt.VerifyAccessToken(cfg, token, nowMs)
      case Err(_) => None
      case Ok(claims) =>
        match FirstIndex(us, ById(claims.userId))
        case None => None
        case Some(i) => Some(UserModel.ToJson(us[i]))
  }

  /** `optionalAuth`: never replies, always calls `next` once, and attaches a user exactly when
      `authenticate` would have. */
  method OptionalAuth(req: Request, db: Database, cfg: Jwt.JwtConfig, nowMs: Millis)
    modifies req
    ensures req.authorization == old(req.authorization) && req.response == old(req.response)
    ensures req.nextCalls == old(req.nextCalls) + 1
    ensures req.user == match OptionalUser(db.users, cfg, old(req.authorization), nowMs)
                        case Some(u) => Some(u)
                        case None => old(req.user)
  {
    var token := BearerCredential(req.authorization);
    if token.Some? {
      var claims := Jwt.VerifyAccessToken(cfg, token.value, nowMs);
      if claims.Ok? {
        var found := FirstIndex(db.users, ById(claims.value.userId));
        if found.Some? {
          req.user := Some(UserModel.ToJson(db.users[found.value]));
        }
      }
    }
    req.nextCalls := req.nextCalls + 1;
  }

  // ---- requireRole, requireSubscription ----

  /** What a guard behind `authenticate` decides. */
  datatype Decision = Proceed | Halt(reply: Reply)

  /** `requireRole(roles)`: the attached user's role must be one of `roles`. */
  function RoleGate(user: Option<PublicUser>, roles: seq<string>): (r: Decision)
    ensures user.None? ==> r == Halt(Reply(401, "Authentication required"))
    ensures r == Proceed <==> user.Some? && Jwt.RoleName(user.value.role) in roles
    ensures user.Some? && Jwt.RoleName(user.value.role) !in roles ==> r == Halt(Reply(403, "Insufficient permissions"))
  {
    if user.None? then Halt(Reply(401, "Authentication required"))
    else if Jwt.RoleName(user.value.role) !in roles then Halt(Reply(403, "Insufficient permissions"))
    else Proceed
  }

  /** `requireRole(['admin'])` lets through administrators only. */
  lemma AdminGate(user: Option<PublicUser>)
    ensures RoleGate(user, ["admin"]) == Proceed <==> user.Some? && user.value.role == AdminRole
  {
  }

  /** `requireSubscription`: the attached user must hold an active subscription at `nowMs`. */
  function SubscriptionGate(user: Option<PublicUser>, nowMs: Millis): (r: Decision)
    ensures user.None? ==> r == Halt(Reply(401, "Authentication required"))
    ensures r == Proceed <==> user.Some? && UserModel.HasActiveSubscription(user.value.subscription, nowMs)
    ensures user.Some? && !UserModel.HasActiveSubscription(user.value.subscription, nowMs) ==>
              r == Halt(Reply(403, "Active subscription required to access this content"))
  {
    if user.None? then Halt(Reply(401, "Authentication required"))
    else if !UserModel.HasActiveSubscription(user.value.subscription, nowMs) then
      Halt(Reply(403, "Active subscription required to access this content"))
    else Proceed
  }

  /** A guard carried out: `next` once when it proceeds, the reply otherwise; `req.user` untouched. */
  method Apply(req: Request, d: Decision)
    modifies req
    ensures req.authorization == old(req.authorization) && req.user == old(req.user)
    ensures d == Proceed ==> req.nextCalls == old(req.nextCalls) + 1 && req.response == old(req.response)
    ensures d.Halt? ==> req.nextCalls == old(req.nextCalls) && req.response == Some(d.reply)
  {
    if d.Halt? {
      req.response := Some(d.reply);
    } else {
      req.nextCalls := req.nextCalls + 1;
    }
  }

  method RequireRole(req: Request, roles: seq<string>)
    modifies req
    ensures req.authorization == old(req.authorization) && req.user == old(req.user)
    ensures RoleGate(old(req.user), roles) == Proceed ==> req.nextCalls == old(req.nextCalls) + 1 && req.response == old(req.response)
    ensures RoleGate(old(req.user), roles).Halt? ==> req.nextCalls == old(req.nextCalls) && req.response == Some(RoleGate(old(req.user), roles).reply)
  {
    Apply(req, RoleGate(req.user, roles));
  }

  method RequireSubscription(req: Request, nowMs: Millis)
    modifies req
    ensures req.authorization == old(req.authorization) && req.user == old(req.user)
    ensures SubscriptionGate(old(req.user), nowMs) == Proceed ==> req.nextCalls == old(req.nextCalls) + 1 && req.response == old(req.response)
    ensures SubscriptionGate(old(req.user), nowMs).Halt? ==>
              req.nextCalls == old(req.nextCalls) && req.response == Some(SubscriptionGate(old(req.user), nowMs).reply)
  {
    Apply(req, SubscriptionGate(req.user, nowMs));
  }
}
