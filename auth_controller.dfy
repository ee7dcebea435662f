/** The session manager of backend/src/controllers/authController.ts: each user's list of live
    refresh tokens, which register and login extend, refresh rotates and logout prunes. Each
    handler is a method over the database, proved equal to a function of the collection it
    reads; the properties are lemmas about those functions. */
module AuthController {
  import opened Wrappers
  import opened Text
  import opened Types
  import opened Seqs
  import opened Store
  import opened UserModel
  import opened Jwt

  // The messages of its replies.
  const UserRegistered := "User registered successfully"
  const RegistrationFailed := "Registration failed"
  const EmailTaken := "User with this email already exists"
  const BadCredentials := "Invalid email or password"
  const LoginSucceeded := "Login successful"
  const LoginFailed := "Login failed"
  const RefreshTokenRequired := "Refresh token is required"
  const InvalidRefreshToken := "Invalid refresh token"
  const TokenRefreshed := "Token refreshed successfully"
  const LogoutSucceeded := "Logout successful"
  const ProfileRetrieved := "Profile retrieved successfully"
  const ProfileFailed := "Failed to retrieve profile"
  const UserNotFound := "User not found"

  /** The `tokens` a successful register, login or refresh hands back. */
  datatype Tokens = Tokens(accessToken: Token, refreshToken: Token)

  /** A handler's reply, the tokens it issued and the User collection it leaves. */
  datatype Session = Session(reply: Reply, tokens: Option<Tokens>, users: seq<User>)

  /** A fresh access and refresh token for the user, issued at `nowMs`. */
  function Issue(cfg: JwtConfig, u: User, nowMs: Millis): Tokens {
    Tokens(GenerateAccessToken(cfg, u, nowMs), GenerateRefreshToken(cfg, u, nowMs))
  }

  /** Every refresh token a user holds decodes to that user's own {userId}. */
  predicate TokensNameHolder(us: seq<User>) {
    forall i, t :: 0 <= i < |us| && t in us[i].refreshTokens ==>
      DecodeToken(t).Some? && DecodeToken(t).value.claims == RefreshClaims(us[i].id)
  }

  /** Issued refresh tokens name the user they were issued to. */
  lemma IssuedNamesHolder(cfg: JwtConfig, u: User, nowMs: Millis)
    ensures DecodeToken(Issue(cfg, u, nowMs).refreshToken).Some?
    ensures DecodeToken(Issue(cfg, u, nowMs).refreshToken).value.claims == RefreshClaims(u.id)
  {
    var p := Payload(RefreshClaims(u.id), Seconds(nowMs), Some(Seconds(nowMs) + cfg.refreshTtl));
    assert Issue(cfg, u, nowMs).refreshToken == Sign(p, cfg.refreshSecret);
    DecodeIgnoresSignature(p, cfg.refreshSecret);
  }

  /** With unique ids, no two users hold the same refresh token. */
  lemma OneHolder(us: seq<User>, t: Token, i: nat, j: nat)
    requires UniqueUsers(us) && TokensNameHolder(us)
    requires i < |us| && j < |us| && t in us[i].refreshTokens && t in us[j].refreshTokens
    ensures i == j
  {
    assert DecodeToken(t).value.claims == RefreshClaims(us[i].id);
    assert DecodeToken(t).value.claims == RefreshClaims(us[j].id);
  }

  // ---- register ----

  /** `register`, where `id` is the ObjectId the new document receives, `emailPattern` the
      schema's email pattern, and `salt` bcrypt's salt. `email` is the body field as the
      route's `normalizeEmail()` sanitizer left it; `findOne({ email })` casts it through the
      schema's email setters before it compares, as the new document's path does, so the
      lookup and the unique index see the same normalised string. */
  function Registration(us: seq<User>, id: UserId, cfg: JwtConfig, email: string, password: string,
                        firstName: string, lastName: string, emailPattern: string -> bool, salt: nat, nowMs: Millis): Session
  {
    if FirstIndex(us, ByEmail(NormalizeEmail(email))).Some? then
      Session(Reply(400, EmailTaken), None, us)
    else
      var u := NewUser(id, email, password, firstName, lastName, nowMs);
      // the validators refuse the first save
      if ValidationErrors(u, emailPattern) != [] then
        Session(Reply(500, RegistrationFailed), None, us)
      else
        var saved := PreSave(u, true, salt);
        var t := Issue(cfg, saved, nowMs);
        Session(Reply(201, UserRegistered), Some(t), us + [saved.(refreshTokens := [t.refreshToken])])
  }

  /** An email some user already has once normalised, in whatever letter case or padding it is
      sent, is refused with 400 and changes nothing. Otherwise register succeeds with 201
      exactly when the new document validates; the user it appends has the normalised email
      and the role 'user', stores a hash that accepts exactly the password given, and holds
      exactly the one refresh token issued, which verifies to its own {userId} as the access
      token does to {userId, email, role}, unless its configured lifetime is zero. */
  lemma RegisterOutcome(us: seq<User>, id: UserId, cfg: JwtConfig, email: string, password: string,
                        firstName: string, lastName: string, emailPattern: string -> bool, salt: nat, nowMs: Millis, candidate: string)
    ensures
      var S := Registration(us, id, cfg, email, password, firstName, lastName, emailPattern, salt, nowMs);
      var taken := exists j :: 0 <= j < |us| && us[j].email == NormalizeEmail(email);
      && (taken ==> S == Session(Reply(400, EmailTaken), None, us))
      && (S.reply.status == 201 <==>
            && !taken
            && ValidationErrors(NewUser(id, email, password, firstName, lastName, nowMs), emailPattern) == [])
      && (S.reply.status != 201 ==> S.users == us && S.tokens.None?)
      && (S.reply.status == 201 ==>
            && S.tokens.Some? && |S.users| == |us| + 1 && S.users[..|us|] == us
            && var u := S.users[|us|];
            && u.id == id && u.email == NormalizeEmail(email) && u.role == UserRole
            && (ComparePassword(u.password, candidate) <==> candidate == password)
            && u.refreshTokens == [S.tokens.value.refreshToken]
            && (cfg.refreshTtl > 0 ==> VerifyRefreshToken(cfg, S.tokens.value.refreshToken, nowMs) == Ok(RefreshClaims(id)))
            && (cfg.accessTtl > 0 ==>
                  VerifyAccessToken(cfg, S.tokens.value.accessToken, nowMs) == Ok(AccessClaims(id, u.email, UserRole))))
  {
    var u := NewUser(id, email, password, firstName, lastName, nowMs);
    var saved := PreSave(u, true, salt);
    var f := FirstIndex(us, ByEmail(NormalizeEmail(email)));
    if f.Some? {
      assert us[f.value].email == NormalizeEmail(email);
    }
    ModifiedSaveHashes(u, salt, password, candidate);
    RefreshTokenVerifies(cfg, saved, nowMs, nowMs);
    AccessTokenVerifies(cfg, saved, nowMs, nowMs);
  }

  /** Two emails with the same normalised form register alike: letter case and padding of the
      address sent make no difference to the reply, the tokens or the collection. */
  lemma RegisterIgnoresCase(us: seq<User>, id: UserId, cfg: JwtConfig, e1: string, e2: string, password: string,
                            firstName: string, lastName: string, emailPattern: string -> bool, salt: nat, nowMs: Millis)
    requires NormalizeEmail(e1) == NormalizeEmail(e2)
    ensures Registration(us, id, cfg, e1, password, firstName, lastName, emailPattern, salt, nowMs)
         == Registration(us, id, cfg, e2, password, firstName, lastName, emailPattern, salt, nowMs)
  {
  }

  method Register(db: Database, cfg: JwtConfig, email: string, password: string, firstName: string, lastName: string,
                  emailPattern: string -> bool, salt: nat, nowMs: Millis) returns (reply: Reply, tokens: Option<Tokens>)
    requires db.Valid()
    modifies db
    ensures db.Valid()
    ensures Registration(old(db.users), old(db.nextId), cfg, email, password, firstName, lastName, emailPattern, salt, nowMs)
            == Session(reply, tokens, db.users)
    ensures db.nextId == old(db.nextId) + (if FirstIndex(old(db.users), ByEmail(NormalizeEmail(email))).None? then 1 else 0)
    ensures db.records == old(db.records) && db.lessons == old(db.lessons)
  {
    if FirstIndex(db.users, ByEmail(NormalizeEmail(email))).Some? {
      return Reply(400, EmailTaken), None;
    }
    var id := db.NewId();
    ghost var u0 := NewUser(id, email, password, firstName, lastName, nowMs);
    var doc := new UserDocument.Create(id, email, password, firstName, lastName, nowMs);
    var saved := doc.Save(salt, emailPattern);
    if saved.Invalid? {
      return Reply(500, RegistrationFailed), None;
    }
    HashedStaysValid(u0, emailPattern, salt);
    var t := Issue(cfg, doc.doc, nowMs);
    doc.PushRefreshToken(t.refreshToken);
    var resaved := doc.Save(salt, emailPattern);
    ghost var u1 := PreSave(u0, true, salt).(refreshTokens := [t.refreshToken]);
    assert doc.doc == u1 && u1.id == id;
    db.InsertUser(doc.doc);
    reply, tokens := Reply(201, UserRegistered), Some(t);
  }

  // ---- login ----

  /** `login`. `email` is the body field as `normalizeEmail()` left it, and `findOne` casts it
      through the schema's email setters; `emailPattern` is the schema's email pattern, which the
      save that records the new token checks again on the stored email. */
  function LoggedIn(us: seq<User>, cfg: JwtConfig, email: string, password: string, emailPattern: string -> bool, nowMs: Millis): Session {
    match FirstIndex(us, ByEmail(NormalizeEmail(email)))
    case None => Session(Reply(401, BadCredentials), None, us)
    case Some(i) =>
      if !ComparePassword(us[i].password, password) then Session(Reply(401, BadCredentials), None, us)
      else
        var t := Issue(cfg, us[i], nowMs);
        var u := us[i].(refreshTokens := us[i].refreshTokens + [t.refreshToken]);
        // `user.save()` validates every path of the loaded document, and a failure throws
        if ValidationErrors(u, emailPattern) != [] then Session(Reply(500, LoginFailed), None, us)
        else Session(Reply(200, LoginSucceeded), Some(t), us[i := u])
  }

  /** The user a login looks up is one whose stored email is the normalised form of the email
      sent. An unknown email and a wrong password get the same 401 and change nothing, so a
      caller cannot tell which it was; a stored document the validators refuse makes the save
      throw, answered 500. A login succeeds exactly when that user exists, the password matches
      and the document validates; it then appends one new refresh token to that user, keeps the
      ones issued before and touches no other user. */
  lemma LoginOutcome(us: seq<User>, cfg: JwtConfig, email: string, password: string, emailPattern: string -> bool, nowMs: Millis)
    ensures
      var S := LoggedIn(us, cfg, email, password, emailPattern, nowMs);
      var f := FirstIndex(us, ByEmail(NormalizeEmail(email)));
      && (f.Some? <==> exists j :: 0 <= j < |us| && us[j].email == NormalizeEmail(email))
      && (f.Some? ==> us[f.value].email == NormalizeEmail(email))
      && (S.reply.status == 200 <==>
            f.Some? && ComparePassword(us[f.value].password, password) && ValidationErrors(us[f.value], emailPattern) == [])
      && (f.None? || !ComparePassword(us[f.value].password, password) ==> S == Session(Reply(401, BadCredentials), None, us))
      && (f.Some? && ComparePassword(us[f.value].password, password) && ValidationErrors(us[f.value], emailPattern) != [] ==>
            S == Session(Reply(500, LoginFailed), None, us))
      && (S.reply.status == 200 ==>
            && S.tokens.Some? && |S.users| == |us|
            && S.users[f.value] == us[f.value].(refreshTokens := us[f.value].refreshTokens + [S.tokens.value.refreshToken])
            && (forall j :: 0 <= j < |us| && j != f.value ==> S.users[j] == us[j])
            && (cfg.refreshTtl > 0 ==>
                  VerifyRefreshToken(cfg, S.tokens.value.refreshToken, nowMs) == Ok(RefreshClaims(us[f.value].id))))
  {
    match FirstIndex(us, ByEmail(NormalizeEmail(email)))
    case None =>
    case Some(i) => RefreshTokenVerifies(cfg, us[i], nowMs, nowMs);
  }

  /** Two emails with the same normalised form log in alike. */
  lemma LoginIgnoresCase(us: seq<User>, cfg: JwtConfig, e1: string, e2: string, password: string, emailPattern: string -> bool, nowMs: Millis)
    requires NormalizeEmail(e1) == NormalizeEmail(e2)
    ensures LoggedIn(us, cfg, e1, password, emailPattern, nowMs) == LoggedIn(us, cfg, e2, password, emailPattern, nowMs)
  {
  }

  method Login(db: Database, cfg: JwtConfig, email: string, password: string, emailPattern: string -> bool, nowMs: Millis)
    returns (reply: Reply, tokens: Option<Tokens>)
    requires db.Valid()
    modifies db
    ensures db.Valid()
    ensures LoggedIn(old(db.users), cfg, email, password, emailPattern, nowMs) == Session(reply, tokens, db.users)
    ensures db.records == old(db.records) && db.lessons == old(db.lessons) && db.nextId == old(db.nextId)
  {
    var found := FirstIndex(db.users, ByEmail(NormalizeEmail(email)));
    if found.None? {
      return Reply(401, BadCredentials), None;
    }
    var i := found.value;
    if !ComparePassword(db.users[i].password, password) {
      return Reply(401, BadCredentials), None;
    }
    var doc := new UserDocument.Load(db.users[i]);
    var t := Issue(cfg, doc.doc, nowMs);
    doc.PushRefreshToken(t.refreshToken);
    // the password of a loaded document is not modified, so the hook ignores the salt
    var saved := doc.Save(0, emailPattern);
    if saved.Invalid? {
      return Reply(500, LoginFailed), None;
    }
    UniqueUsersAfterWrite(db.users, i, doc.doc);
    db.users := db.users[i := doc.doc];
    reply, tokens := Reply(200, LoginSucceeded), Some(t);
  }

  // ---- refreshToken ----

  /** `refreshToken`; an empty `token` stands for a missing or empty body field. */
  function Refreshed(us: seq<User>, cfg: JwtConfig, token: Token, nowMs: Millis): Session {
    if token == "" then Session(Reply(400, RefreshTokenRequired), None, us)
    else match VerifyRefreshToken(cfg, token, nowMs)
      case Err(_) => Session(Reply(401, InvalidRefreshToken), None, us)
      case Ok(claims) =>
        match FirstIndex(us, ById(claims.userId))
        case None => Session(Reply(401, InvalidRefreshToken), None, us)
        case Some(i) =>
          if token !in us[i].refreshTokens then Session(Reply(401, InvalidRefreshToken), None, us)
          else
            var t := Issue(cfg, us[i], nowMs);
            Session(Reply(200, TokenRefreshed), Some(t),
                    us[i := us[i].(refreshTokens := RemoveAll(us[i].refreshTokens, token) + [t.refreshToken])])
  }

  /** The user a verified refresh token names, when there is one that still holds it. */
  function Holder(us: seq<User>, cfg: JwtConfig, token: Token, nowMs: Millis): Option<nat> {
    match VerifyRefreshToken(cfg, token, nowMs)
    case Err(_) => None
    case Ok(claims) =>
      match FirstIndex(us, ById(claims.userId))
      case None => None
      case Some(i) => if token in us[i].refreshTokens then Some(i) else None
  }

  /** A missing token gets 400; a bad signature, an expired token, a user who is gone and a
      token the user no longer holds all get the same 401; none of them changes anything. A
      refresh that succeeds removes every copy of the token presented from its holder, appends
      the new one, and leaves every other token of every user as it was. */
  lemma RefreshOutcome(us: seq<User>, cfg: JwtConfig, token: Token, nowMs: Millis)
    ensures
      var S := Refreshed(us, cfg, token, nowMs);
      var h := Holder(us, cfg, token, nowMs);
      && (token == "" ==> S == Session(Reply(400, RefreshTokenRequired), None, us))
      && (token != "" && h.None? ==> S == Session(Reply(401, InvalidRefreshToken), None, us))
      && (S.reply.status == 200 <==> token != "" && h.Some?)
      && (S.reply.status == 200 ==>
            && S.tokens.Some? && |S.users| == |us| && h.value < |us|
            && S.users[h.value] == us[h.value].(refreshTokens := S.users[h.value].refreshTokens)
            && S.users[h.value].refreshTokens == RemoveAll(us[h.value].refreshTokens, token) + [S.tokens.value.refreshToken]
            && (forall x :: x != token && x != S.tokens.value.refreshToken ==>
                  multiset(S.users[h.value].refreshTokens)[x] == multiset(us[h.value].refreshTokens)[x])
            && (forall j :: 0 <= j < |us| && j != h.value ==> S.users[j] == us[j]))
  {
  }

  /** Once a refresh has rotated a token out, presenting it again is refused and changes
      nothing, unless the rotation minted that very token again. */
  lemma RefreshReplayRefused(us: seq<User>, cfg: JwtConfig, token: Token, nowMs: Millis, laterMs: Millis)
    requires Refreshed(us, cfg, token, nowMs).reply.status == 200
    requires Refreshed(us, cfg, token, nowMs).tokens.value.refreshToken != token
    ensures
      var us' := Refreshed(us, cfg, token, nowMs).users;
      Refreshed(us', cfg, token, laterMs) == Session(Reply(401, InvalidRefreshToken), None, us')
  {
    var S := Refreshed(us, cfg, token, nowMs);
    var i := Holder(us, cfg, token, nowMs).value;
    var u' := S.users[i];
    assert token !in u'.refreshTokens;
    match VerifyRefreshToken(cfg, token, laterMs)
    case Err(_) =>
    case Ok(c) =>
      var claims := VerifyRefreshToken(cfg, token, nowMs).value;
      // the claims are those of the token itself, whenever it is verified
      assert Parse(token).Some? && c == Parse(token).value.payload.claims == claims;
      FirstIndexAfterWrite(us, ById(claims.userId), i, u');
  }

  /** Tokens carry no nonce, so a refresh in the second its token was issued mints that same
      token again: the user keeps holding it and it can be replayed. */
  lemma RefreshWithinSecondKeepsToken(us: seq<User>, cfg: JwtConfig, i: nat, issuedMs: Millis, nowMs: Millis)
    requires UniqueUsers(us) && i < |us|
    requires Seconds(issuedMs) == Seconds(nowMs) && cfg.refreshTtl > 0
    requires GenerateRefreshToken(cfg, us[i], issuedMs) in us[i].refreshTokens
    ensures
      var token := GenerateRefreshToken(cfg, us[i], issuedMs);
      var S := Refreshed(us, cfg, token, nowMs);
      && S.reply.status == 200 && S.tokens.value.refreshToken == token
      && token in S.users[i].refreshTokens
  {
    var token := GenerateRefreshToken(cfg, us[i], issuedMs);
    RefreshTokenVerifies(cfg, us[i], issuedMs, nowMs);
    FindByIdUnique(us, i);
    assert Encode(Signed(Payload(RefreshClaims(us[i].id), Seconds(issuedMs), Some(Seconds(issuedMs) + cfg.refreshTtl)), cfg.refreshSecret)) != "";
  }

  method RefreshToken(db: Database, cfg: JwtConfig, token: Token, nowMs: Millis) returns (reply: Reply, tokens: Option<Tokens>)
    requires db.Valid()
    modifies db
    ensures db.Valid()
    ensures Refreshed(old(db.users), cfg, token, nowMs) == Session(reply, tokens, db.users)
    ensures db.records == old(db.records) && db.lessons == old(db.lessons) && db.nextId == old(db.nextId)
  {
    if token == "" {
      return Reply(400, RefreshTokenRequired), None;
    }
    var payload := VerifyRefreshToken(cfg, token, nowMs);
    if payload.Err? {
      return Reply(401, InvalidRefreshToken), None;
    }
    var found := FirstIndex(db.users, ById(payload.value.userId));
    if found.None? {
      return Reply(401, InvalidRefreshToken), None;
    }
    var i := found.value;
    if token !in db.users[i].refreshTokens {
      return Reply(401, InvalidRefreshToken), None;
    }
    var doc := new UserDocument.Load(db.users[i]);
    var t := Issue(cfg, doc.doc, nowMs);
    doc.SetRefreshTokens(RemoveAll(doc.doc.refreshTokens, token));
    doc.PushRefreshToken(t.refreshToken);
    UniqueUsersAfterWrite(db.users, i, doc.doc);
    db.users := db.users[i := doc.doc];
    reply, tokens := Reply(200, TokenRefreshed), Some(t);
  }

  // ---- logout ----

  /** `logout`: the first user holding the token loses every copy of it. */
  function LoggedOut(us: seq<User>, token: Token): (Reply, seq<User>) {
    if token == "" then (Reply(400, RefreshTokenRequired), us)
    else match FirstIndex(us, HoldingToken(token))
      case None => (Reply(200, LogoutSucceeded), us)
      case Some(i) => (Reply(200, LogoutSucceeded), us[i := us[i].(refreshTokens := RemoveAll(us[i].refreshTokens, token))])
  }

  /** Any non-empty token logs out with 200, whether or not a user held it; afterwards no user
      holds it, every other token is kept, and logging out again changes nothing. */
  lemma LogoutOutcome(us: seq<User>, token: Token)
    requires UniqueUsers(us) && TokensNameHolder(us)
    ensures token == "" ==> LoggedOut(us, token) == (Reply(400, RefreshTokenRequired), us)
    ensures token != "" ==> LoggedOut(us, token).0 == Reply(200, LogoutSucceeded)
    ensures token != "" ==>
      var us' := LoggedOut(us, token).1;
      && |us'| == |us|
      && (forall j :: 0 <= j < |us| ==> token !in us'[j].refreshTokens)
      && (forall j :: 0 <= j < |us| ==> us'[j] == us[j].(refreshTokens := us'[j].refreshTokens))
      && (forall j, x :: 0 <= j < |us| && x != token ==> multiset(us'[j].refreshTokens)[x] == multiset(us[j].refreshTokens)[x])
    ensures LoggedOut(LoggedOut(us, token).1, token) == LoggedOut(us, token)
  {
    if token != "" {
      match FirstIndex(us, HoldingToken(token))
      case None =>
        assert forall j :: 0 <= j < |us| ==> !HoldingToken(token)(us[j]);
      case Some(i) =>
        var us' := LoggedOut(us, token).1;
        forall j | 0 <= j < |us| && j != i
          ensures token !in us[j].refreshTokens
        {
          if token in us[j].refreshTokens {
            OneHolder(us, token, i, j);
          }
        }
        assert forall j :: 0 <= j < |us| ==> !HoldingToken(token)(us'[j]);
    }
  }

  method Logout(db: Database, token: Token) returns (reply: Reply)
    requires db.Valid()
    modifies db
    ensures db.Valid()
    ensures LoggedOut(old(db.users), token) == (reply, db.users)
    ensures db.records == old(db.records) && db.lessons == old(db.lessons) && db.nextId == old(db.nextId)
  {
    if token == "" {
      return Reply(400, RefreshTokenRequired);
    }
    var found := FirstIndex(db.users, HoldingToken(token));
    if found.Some? {
      var i := found.value;
      var doc := new UserDocument.Load(db.users[i]);
      doc.SetRefreshTokens(RemoveAll(doc.doc.refreshTokens, token));
      UniqueUsersAfterWrite(db.users, i, doc.doc);
      db.users := db.users[i := doc.doc];
    }
    reply := Reply(200, LogoutSucceeded);
  }

  // ---- the token invariant ----

  /** Register, login, refresh and logout each keep every refresh token with the user it names. */
  lemma RegisterKeepsTokensNamed(us: seq<User>, id: UserId, cfg: JwtConfig, email: string, password: string,
                                 firstName: string, lastName: string, emailPattern: string -> bool, salt: nat, nowMs: Millis)
    requires TokensNameHolder(us)
    ensures TokensNameHolder(Registration(us, id, cfg, email, password, firstName, lastName, emailPattern, salt, nowMs).users)
  {
    IssuedNamesHolder(cfg, PreSave(NewUser(id, email, password, firstName, lastName, nowMs), true, salt), nowMs);
  }

  /** Rewriting one user, keeping its id, with tokens that all name it keeps the invariant. */
  lemma TokensNamedAfterWrite(us: seq<User>, i: nat, u: User)
    requires TokensNameHolder(us) && i < |us| && u.id == us[i].id
    requires forall t :: t in u.refreshTokens ==> DecodeToken(t).Some? && DecodeToken(t).value.claims == RefreshClaims(u.id)
    ensures TokensNameHolder(us[i := u])
  {
    var us' := us[i := u];
    forall j, t | 0 <= j < |us'| && t in us'[j].refreshTokens
      ensures DecodeToken(t).Some? && DecodeToken(t).value.claims == RefreshClaims(us'[j].id)
    {
      if j != i {
        assert us'[j] == us[j];
      }
    }
  }

  lemma LoginKeepsTokensNamed(us: seq<User>, cfg: JwtConfig, email: string, password: string, emailPattern: string -> bool, nowMs: Millis)
    requires TokensNameHolder(us)
    ensures TokensNameHolder(LoggedIn(us, cfg, email, password, emailPattern, nowMs).users)
  {
    var f := FirstIndex(us, ByEmail(NormalizeEmail(email)));
    if f.Some? && ComparePassword(us[f.value].password, password) && ValidationErrors(us[f.value], emailPattern) == [] {
      var i := f.value;
      var t := Issue(cfg, us[i], nowMs);
      IssuedNamesHolder(cfg, us[i], nowMs);
      TokensNamedAfterWrite(us, i, us[i].(refreshTokens := us[i].refreshTokens + [t.refreshToken]));
    }
  }

  lemma RefreshKeepsTokensNamed(us: seq<User>, cfg: JwtConfig, token: Token, nowMs: Millis)
    requires TokensNameHolder(us)
    ensures TokensNameHolder(Refreshed(us, cfg, token, nowMs).users)
  {
    var h := Holder(us, cfg, token, nowMs);
    if token != "" && h.Some? {
      var i := h.value;
      var t := Issue(cfg, us[i], nowMs);
      IssuedNamesHolder(cfg, us[i], nowMs);
      TokensNamedAfterWrite(us, i, us[i].(refreshTokens := RemoveAll(us[i].refreshTokens, token) + [t.refreshToken]));
    }
  }

  lemma LogoutKeepsTokensNamed(us: seq<User>, token: Token)
    requires TokensNameHolder(us)
    ensures TokensNameHolder(LoggedOut(us, token).1)
  {
    var f := FirstIndex(us, HoldingToken(token));
    if token != "" && f.Some? {
      var i := f.value;
      TokensNamedAfterWrite(us, i, us[i].(refreshTokens := RemoveAll(us[i].refreshTokens, token)));
    }
  }

  // ---- the validity invariant ----

  /** Register keeps every stored user valid: it appends only a document that passed the
      validators. */
  lemma RegisterKeepsValidUsers(us: seq<User>, id: UserId, cfg: JwtConfig, email: string, password: string,
                                firstName: string, lastName: string, emailPattern: string -> bool, salt: nat, nowMs: Millis)
    requires ValidUsers(us, emailPattern)
    ensures ValidUsers(Registration(us, id, cfg, email, password, firstName, lastName, emailPattern, salt, nowMs).users, emailPattern)
  {
    var u := NewUser(id, email, password, firstName, lastName, nowMs);
    if FirstIndex(us, ByEmail(NormalizeEmail(email))).None? && ValidationErrors(u, emailPattern) == [] {
      HashedStaysValid(u, emailPattern, salt);
      var t := Issue(cfg, PreSave(u, true, salt), nowMs);
      ValidUsersAfterAppend(us, PreSave(u, true, salt).(refreshTokens := [t.refreshToken]), emailPattern);
    }
  }

  /** Login changes only a refresh-token list, which no validator reads: it keeps every stored
      user valid, and on such a collection its save never fails, so it never answers 500. */
  lemma LoginKeepsValidUsers(us: seq<User>, cfg: JwtConfig, email: string, password: string, emailPattern: string -> bool, nowMs: Millis)
    requires ValidUsers(us, emailPattern)
    ensures ValidUsers(LoggedIn(us, cfg, email, password, emailPattern, nowMs).users, emailPattern)
    ensures LoggedIn(us, cfg, email, password, emailPattern, nowMs).reply.status != 500
  {
    var f := FirstIndex(us, ByEmail(NormalizeEmail(email)));
    if f.Some? {
      var i := f.value;
      var t := Issue(cfg, us[i], nowMs);
      var u := us[i].(refreshTokens := us[i].refreshTokens + [t.refreshToken]);
      assert ValidationErrors(u, emailPattern) == ValidationErrors(us[i], emailPattern) == [];
      ValidUsersAfterWrite(us, i, u, emailPattern);
    }
  }

  /** Refresh and logout change only refresh-token lists, and keep every stored user valid. */
  lemma RefreshKeepsValidUsers(us: seq<User>, cfg: JwtConfig, token: Token, nowMs: Millis, emailPattern: string -> bool)
    requires ValidUsers(us, emailPattern)
    ensures ValidUsers(Refreshed(us, cfg, token, nowMs).users, emailPattern)
  {
    var h := Holder(us, cfg, token, nowMs);
    if token != "" && h.Some? {
      var i := h.value;
      var t := Issue(cfg, us[i], nowMs);
      var u := us[i].(refreshTokens := RemoveAll(us[i].refreshTokens, token) + [t.refreshToken]);
      assert ValidationErrors(u, emailPattern) == ValidationErrors(us[i], emailPattern) == [];
      ValidUsersAfterWrite(us, i, u, emailPattern);
    }
  }

  lemma LogoutKeepsValidUsers(us: seq<User>, token: Token, emailPattern: string -> bool)
    requires ValidUsers(us, emailPattern)
    ensures ValidUsers(LoggedOut(us, token).1, emailPattern)
  {
    var f := FirstIndex(us, HoldingToken(token));
    if token != "" && f.Some? {
      var i := f.value;
      var u := us[i].(refreshTokens := RemoveAll(us[i].refreshTokens, token));
      assert ValidationErrors(u, emailPattern) == ValidationErrors(us[i], emailPattern) == [];
      ValidUsersAfterWrite(us, i, u, emailPattern);
    }
  }

  // ---- getProfile ----

  /** Casting a path parameter to an ObjectId: ids are written as decimal numerals here, and
      anything else fails the cast. */
  function CastId(s: string): Option<UserId> {
    ParseNat(s)
  }

  /** The id `getProfile` looks up: the one in the path, else the authenticated user's. */
  function RequestedId(param: string, authUser: Option<UserId>): Option<UserId> {
    if param != "" then CastId(param) else authUser
  }

  /** `getProfile`. A path id that fails the cast throws, and the handler answers 500. */
  function GetProfile(us: seq<User>, param: string, authUser: Option<UserId>): (r: (Reply, Option<PublicUser>))
    ensures param == "" && authUser.None? ==> r == (Reply(400, "User ID is required"), None)
    ensures r.0.status == 200 <==> r.1.Some?
    ensures r.1.Some? ==>
      && RequestedId(param, authUser).Some?
      && exists i :: 0 <= i < |us| && us[i].id == RequestedId(param, authUser).value && r.1.value == ToJson(us[i])
    ensures r.0.status == 404 <==>
      && RequestedId(param, authUser).Some?
      && forall i :: 0 <= i < |us| ==> us[i].id != RequestedId(param, authUser).value
  {
    var id := RequestedId(param, authUser);
    if param == "" && authUser.None? then (Reply(400, "User ID is required"), None)
    else if id.None? then (Reply(500, ProfileFailed), None)
    else match FirstIndex(us, ById(id.value))
      case None => (Reply(404, UserNotFound), None)
      case Some(i) => (Reply(200, ProfileRetrieved), Some(ToJson(us[i])))
  }
}
