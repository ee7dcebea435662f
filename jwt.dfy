/** Token issue and verification, after backend/src/utils/jwt.ts.

    A JSON Web Token (RFC 7519) is modelled by a concrete, injective, length-prefixed text
    encoding of its claims together with the key that signed it. Signatures are perfect: a
    token verifies under a key exactly when it was signed with that key. Times in a payload
    are Unix seconds, as `iat` and `exp` are in section 4.1 of RFC 7519. */
module Jwt {
  import opened Wrappers
  import opened Text
  import opened Types

  /** The claims the two generators put in a payload. */
  datatype Claims =
    | AccessClaims(userId: UserId, email: string, role: Role)
    | RefreshClaims(userId: UserId)

  /** A payload: the claims plus the registered `iat` and `exp` claims. */
  datatype Payload = Payload(claims: Claims, iat: nat, exp: Option<nat>)

  /** A signed token: its payload and the key its signature was computed with. */
  datatype Signed = Signed(payload: Payload, key: string)

  /** The two signing secrets and the two lifetimes in seconds, read once from the environment. */
  datatype JwtConfig = JwtConfig(secret: string, refreshSecret: string, accessTtl: nat, refreshTtl: nat)

  const DefaultSecret := "fallback-secret-key"
  const DefaultRefreshSecret := "fallback-refresh-secret-key"
  const DefaultExpiresIn := "15m"
  const DefaultRefreshExpiresIn := "7d"

  /** `process.env.X || fallback`: an unset or empty variable falls back. */
  function EnvOr(env: map<string, string>, name: string, fallback: string): (r: string)
    ensures name in env && env[name] != "" ==> r == env[name]
    ensures name !in env || env[name] == "" ==> r == fallback
  {
    if name in env && env[name] != "" then env[name] else fallback
  }

  /** The seconds of the one-letter units of the `ms` timespan format, in either case. */
  function UnitSeconds(c: char): Option<nat> {
    match LowerChar(c)
    case 's' => Some(1)
    case 'm' => Some(60)
    case 'h' => Some(60 * 60)
    case 'd' => Some(24 * 60 * 60)
    case 'w' => Some(7 * 24 * 60 * 60)
    case 'y' => Some(31557600)
    case _ => None
  }

  /** The lifetime `expiresIn: s` gives a token, in whole seconds: a number followed by a
      one-letter unit, or a bare number, which the `ms` format reads as milliseconds and
      `jsonwebtoken` floors to seconds. The format's other spellings are the parameter `other`. */
  function Timespan(s: string, other: string -> nat): (r: nat)
    ensures s != "" && AllDigits(s) ==> r == DigitsValue(s) / 1000
  {
    if s != "" && AllDigits(s) then DigitsValue(s) / 1000
    else if |s| >= 2 && AllDigits(s[..|s| - 1]) && UnitSeconds(s[|s| - 1]).Some? then
      DigitsValue(s[..|s| - 1]) * UnitSeconds(s[|s| - 1]).value
    else other(s)
  }

  function ConfigFrom(env: map<string, string>, other: string -> nat): JwtConfig {
    JwtConfig(EnvOr(env, "JWT_SECRET", DefaultSecret), EnvOr(env, "JWT_REFRESH_SECRET", DefaultRefreshSecret),
              Timespan(EnvOr(env, "JWT_EXPIRES_IN", DefaultExpiresIn), other),
              Timespan(EnvOr(env, "JWT_REFRESH_EXPIRES_IN", DefaultRefreshExpiresIn), other))
  }

  /** Without configuration an access token lives 15 minutes and a refresh token 7 days. */
  lemma DefaultLifetimes(env: map<string, string>, other: string -> nat)
    requires "JWT_EXPIRES_IN" !in env && "JWT_REFRESH_EXPIRES_IN" !in env
    ensures ConfigFrom(env, other).accessTtl == 15 * 60
    ensures ConfigFrom(env, other).refreshTtl == 7 * 24 * 60 * 60
  {
    var a, r := DefaultExpiresIn, DefaultRefreshExpiresIn;
    assert !IsDigit(a[2]) && !IsDigit(r[1]);
    assert a[..|a| - 1] == "15" && "15"[..1] == "1" && UnitSeconds(a[|a| - 1]) == Some(60);
    assert DigitsValue("1") == 1 && DigitsValue("15") == 15;
    assert r[..|r| - 1] == "7" && UnitSeconds(r[|r| - 1]) == Some(24 * 60 * 60);
    assert DigitsValue("7") == 7;
  }

  /** Without configuration the two secrets differ, so the two kinds of token cannot be swapped. */
  lemma DefaultSecretsDiffer(env: map<string, string>, other: string -> nat)
    requires "JWT_SECRET" !in env && "JWT_REFRESH_SECRET" !in env
    ensures ConfigFrom(env, other).secret != ConfigFrom(env, other).refreshSecret
  {
    assert DefaultSecret[9] != DefaultRefreshSecret[9];
  }

  // ---- the encoding ----

  /** One field: its length in decimal, a colon, then the field itself. */
  function Field(x: string): string {
    NatToString(|x|) + ":" + x
  }

  function Fields(xs: seq<string>): string {
    if xs == [] then "" else Field(xs[0]) + Fields(xs[1..])
  }

  /** Reads one field off the front of `s`, returning it and what follows. */
  function ReadField(s: string): (r: Option<(string, string)>)
    ensures r.Some? ==> |r.value.1| < |s|
  {
    match IndexOf(s, ':')
    case None => None
    case Some(i) =>
      match ParseNat(s[..i])
      case None => None
      case Some(n) => if i + 1 + n <= |s| then Some((s[i + 1..i + 1 + n], s[i + 1 + n..])) else None
  }

  function ReadFields(s: string): Option<seq<string>>
    decreases |s|
  {
    if s == [] then Some([])
    else match ReadField(s)
      case None => None
      case Some((x, rest)) =>
        match ReadFields(rest)
        case None => None
        case Some(xs) => Some([x] + xs)
  }

  lemma ReadFieldOf(x: string, rest: string)
    ensures ReadField(Field(x) + rest) == Some((x, rest))
  {
    var d := NatToString(|x|);
    var s := Field(x) + rest;
    assert s == d + [':'] + (x + rest);
    assert forall k :: 0 <= k < |d| ==> d[k] != ':';
    IndexOfAfter(d, ':', x + rest);
    assert s[..|d|] == d;
    ParseNatToString(|x|);
    assert s[|d| + 1..|d| + 1 + |x|] == x;
    assert s[|d| + 1 + |x|..] == rest;
  }

  /** Reading back an encoded list of fields gives the list. */
  lemma {:induction false} ReadFieldsOf(xs: seq<string>)
    ensures ReadFields(Fields(xs)) == Some(xs)
  {
    if xs != [] {
      ReadFieldOf(xs[0], Fields(xs[1..]));
      assert Fields(xs) != [];
      ReadFieldsOf(xs[1..]);
      assert [xs[0]] + xs[1..] == xs;
    }
  }

  function RoleName(r: Role): string {
    match r
    case UserRole => "user"
    case AdminRole => "admin"
  }

  function RoleOf(s: string): (r: Option<Role>)
    ensures r.Some? ==> RoleName(r.value) == s
  {
    if s == "user" then Some(UserRole) else if s == "admin" then Some(AdminRole) else None
  }

  function ExpField(e: Option<nat>): string {
    match e
    case None => ""
    case Some(n) => NatToString(n)
  }

  function ExpOf(s: string): Option<Option<nat>> {
    if s == "" then Some(None)
    else match ParseNat(s)
      case None => None
      case Some(n) => Some(Some(n))
  }

  function ToFields(t: Signed): seq<string> {
    match t.payload.claims
    case AccessClaims(id, email, role) =>
      ["access", NatToString(id), email, RoleName(role), NatToString(t.payload.iat), ExpField(t.payload.exp), t.key]
    case RefreshClaims(id) =>
      ["refresh", NatToString(id), NatToString(t.payload.iat), ExpField(t.payload.exp), t.key]
  }

  function FromFields(fs: seq<string>): Option<Signed> {
    if |fs| == 7 && fs[0] == "access" then
      if ParseNat(fs[1]).Some? && RoleOf(fs[3]).Some? && ParseNat(fs[4]).Some? && ExpOf(fs[5]).Some? then
        Some(Signed(Payload(AccessClaims(ParseNat(fs[1]).value, fs[2], RoleOf(fs[3]).value),
                            ParseNat(fs[4]).value, ExpOf(fs[5]).value), fs[6]))
      else None
    else if |fs| == 5 && fs[0] == "refresh" then
      if ParseNat(fs[1]).Some? && ParseNat(fs[2]).Some? && ExpOf(fs[3]).Some? then
        Some(Signed(Payload(RefreshClaims(ParseNat(fs[1]).value), ParseNat(fs[2]).value, ExpOf(fs[3]).value), fs[4]))
      else None
    else None
  }

  /** The compact serialisation of a signed token. */
  function Encode(t: Signed): Token {
    Fields(ToFields(t))
  }

  /** Parsing a token string: the signed token it is the exact encoding of, if any. A signature
      covers the exact bytes of a token, so a re-spelling of an encoding (a length written with
      a leading zero, say) is refused. */
  function Parse(s: Token): (r: Option<Signed>)
    ensures r.Some? ==> Encode(r.value) == s
  {
    match ReadFields(s)
    case None => None
    case Some(fs) =>
      match FromFields(fs)
      case None => None
      case Some(t) => if Encode(t) == s then Some(t) else None
  }

  lemma ExpOfField(e: Option<nat>)
    ensures ExpOf(ExpField(e)) == Some(e)
  {
    if e.Some? {
      ParseNatToString(e.value);
    }
  }

  /** Every signed token parses back to itself. */
  lemma ParseEncode(t: Signed)
    ensures Parse(Encode(t)) == Some(t)
  {
    ReadFieldsOf(ToFields(t));
    FromToFields(t);
  }

  lemma FromToFields(t: Signed)
    ensures FromFields(ToFields(t)) == Some(t)
  {
    var fs := ToFields(t);
    ParseNatToString(t.payload.claims.userId);
    ParseNatToString(t.payload.iat);
    ExpOfField(t.payload.exp);
    match t.payload.claims
    case AccessClaims(id, email, role) =>
      assert ParseNat(fs[1]) == Some(id) && ParseNat(fs[4]) == Some(t.payload.iat);
      assert RoleOf(fs[3]) == Some(role) by {
        match role
        case UserRole =>
        case AdminRole =>
      }
      assert ExpOf(fs[5]) == Some(t.payload.exp);
    case RefreshClaims(id) =>
      assert ParseNat(fs[1]) == Some(id) && ParseNat(fs[2]) == Some(t.payload.iat);
      assert ExpOf(fs[3]) == Some(t.payload.exp);
  }

  /** Different signed tokens never serialise to the same string. */
  lemma EncodeInjective(a: Signed, b: Signed)
    requires Encode(a) == Encode(b)
    ensures a == b
  {
    ParseEncode(a);
    ParseEncode(b);
  }

  // ---- jwt.ts ----

  function Sign(p: Payload, key: string): Token {
    Encode(Signed(p, key))
  }

  /** `Math.floor(Date.now() / 1000)`: the second a millisecond instant falls in. */
  function Seconds(nowMs: Millis): nat {
    nowMs / 1000
  }

  /** `generateAccessToken`: {userId, email, role} signed with the access secret, for its lifetime. */
  function GenerateAccessToken(cfg: JwtConfig, u: User, nowMs: Millis): Token {
    Sign(Payload(AccessClaims(u.id, u.email, u.role), Seconds(nowMs), Some(Seconds(nowMs) + cfg.accessTtl)), cfg.secret)
  }

  /** `generateRefreshToken`: {userId} signed with the refresh secret, for its lifetime. */
  function GenerateRefreshToken(cfg: JwtConfig, u: User, nowMs: Millis): Token {
    Sign(Payload(RefreshClaims(u.id), Seconds(nowMs), Some(Seconds(nowMs) + cfg.refreshTtl)), cfg.refreshSecret)
  }

  /** A payload is current while the present second lies strictly before its `exp`
      (section 4.1.4 of RFC 7519); a payload without `exp` never expires. */
  predicate Current(p: Payload, nowMs: Millis) {
    p.exp.None? || Seconds(nowMs) < p.exp.value
  }

  /** `jwt.verify(token, key)`: the claims of a well-formed token signed with `key` that is
      still current; None where the library throws. */
  function VerifyWith(token: Token, key: string, nowMs: Millis): Option<Claims> {
    match Parse(token)
    case None => None
    case Some(t) =>
      if t.key != key then None
      else if !Current(t.payload, nowMs) then None
      else Some(t.payload.claims)
  }

  /** Verification accepts exactly the current tokens signed with the key, and yields their claims. */
  lemma VerifySigned(p: Payload, signedWith: string, key: string, nowMs: Millis)
    ensures VerifyWith(Sign(p, signedWith), key, nowMs) ==
            if signedWith == key && Current(p, nowMs) then Some(p.claims) else None
  {
    ParseEncode(Signed(p, signedWith));
  }

  /** Whatever verification accepts was signed with the key by some signer. */
  lemma VerifiedIsSigned(token: Token, key: string, nowMs: Millis)
    requires VerifyWith(token, key, nowMs).Some?
    ensures exists p :: token == Sign(p, key) && Current(p, nowMs) && VerifyWith(token, key, nowMs) == Some(p.claims)
  {
    var t := Parse(token).value;
    assert token == Sign(t.payload, key);
  }

  /** `verifyAccessToken`: the library's errors collapse to one fixed message. */
  function VerifyAccessToken(cfg: JwtConfig, token: Token, nowMs: Millis): (r: Result<Claims>)
    ensures r.Ok? <==> VerifyWith(token, cfg.secret, nowMs).Some?
    ensures r.Ok? ==> r.value == VerifyWith(token, cfg.secret, nowMs).value
    ensures r.Err? ==> r.error == "Invalid access token"
  {
    match VerifyWith(token, cfg.secret, nowMs)
    case Some(c) => Ok(c)
    case None => Err("Invalid access token")
  }

  /** `verifyRefreshToken`, likewise with the refresh secret. */
  function VerifyRefreshToken(cfg: JwtConfig, token: Token, nowMs: Millis): (r: Result<Claims>)
    ensures r.Ok? <==> VerifyWith(token, cfg.refreshSecret, nowMs).Some?
    ensures r.Ok? ==> r.value == VerifyWith(token, cfg.refreshSecret, nowMs).value
    ensures r.Err? ==> r.error == "Invalid refresh token"
  {
    match VerifyWith(token, cfg.refreshSecret, nowMs)
    case Some(c) => Ok(c)
    case None => Err("Invalid refresh token")
  }

  /** `decodeToken`: the payload of any well-formed token, whoever signed it; None (null) otherwise. */
  function DecodeToken(token: Token): Option<Payload> {
    match Parse(token)
    case None => None
    case Some(t) => Some(t.payload)
  }

  /** `isTokenExpired`: expired when the token does not decode, carries no (or a zero) `exp`,
      or its `exp` lies before the current second. */
  function IsTokenExpired(token: Token, nowMs: Millis): bool {
    match DecodeToken(token)
    case None => true
    case Some(p) => p.exp.None? || p.exp.value == 0 || p.exp.value < Seconds(nowMs)
  }

  // ---- properties of issued tokens ----

  /** An access token verifies with the access secret, giving exactly {userId, email, role},
      until the second its lifetime runs out; from then on it is refused. */
  lemma AccessTokenVerifies(cfg: JwtConfig, u: User, issuedMs: Millis, nowMs: Millis)
    ensures VerifyAccessToken(cfg, GenerateAccessToken(cfg, u, issuedMs), nowMs) ==
            if Seconds(nowMs) < Seconds(issuedMs) + cfg.accessTtl then Ok(AccessClaims(u.id, u.email, u.role))
            else Err("Invalid access token")
  {
    var p := Payload(AccessClaims(u.id, u.email, u.role), Seconds(issuedMs), Some(Seconds(issuedMs) + cfg.accessTtl));
    assert GenerateAccessToken(cfg, u, issuedMs) == Sign(p, cfg.secret);
    VerifySigned(p, cfg.secret, cfg.secret, nowMs);
  }

  /** A refresh token verifies with the refresh secret, giving exactly {userId}, for its lifetime. */
  lemma RefreshTokenVerifies(cfg: JwtConfig, u: User, issuedMs: Millis, nowMs: Millis)
    ensures VerifyRefreshToken(cfg, GenerateRefreshToken(cfg, u, issuedMs), nowMs) ==
            if Seconds(nowMs) < Seconds(issuedMs) + cfg.refreshTtl then Ok(RefreshClaims(u.id))
            else Err("Invalid refresh token")
  {
    var p := Payload(RefreshClaims(u.id), Seconds(issuedMs), Some(Seconds(issuedMs) + cfg.refreshTtl));
    assert GenerateRefreshToken(cfg, u, issuedMs) == Sign(p, cfg.refreshSecret);
    VerifySigned(p, cfg.refreshSecret, cfg.refreshSecret, nowMs);
  }

  /** With distinct secrets an access token is no refresh token and a refresh token no access token. */
  lemma TokensNotInterchangeable(cfg: JwtConfig, u: User, issuedMs: Millis, nowMs: Millis)
    requires cfg.secret != cfg.refreshSecret
    ensures VerifyRefreshToken(cfg, GenerateAccessToken(cfg, u, issuedMs), nowMs) == Err("Invalid refresh token")
    ensures VerifyAccessToken(cfg, GenerateRefreshToken(cfg, u, issuedMs), nowMs) == Err("Invalid access token")
  {
    var a := Payload(AccessClaims(u.id, u.email, u.role), Seconds(issuedMs), Some(Seconds(issuedMs) + cfg.accessTtl));
    var r := Payload(RefreshClaims(u.id), Seconds(issuedMs), Some(Seconds(issuedMs) + cfg.refreshTtl));
    assert GenerateAccessToken(cfg, u, issuedMs) == Sign(a, cfg.secret);
    assert GenerateRefreshToken(cfg, u, issuedMs) == Sign(r, cfg.refreshSecret);
    VerifySigned(a, cfg.secret, cfg.refreshSecret, nowMs);
    VerifySigned(r, cfg.refreshSecret, cfg.secret, nowMs);
  }

  /** `decodeToken` returns the payload whichever key signed the token: it checks no signature. */
  lemma DecodeIgnoresSignature(p: Payload, key: string)
    ensures DecodeToken(Sign(p, key)) == Some(p)
  {
    ParseEncode(Signed(p, key));
  }

  /** `decodeToken` gives null exactly on what no signer produced. */
  lemma DecodeNullIffUnsigned(token: Token)
    ensures DecodeToken(token).None? <==> forall t :: Encode(t) != token
  {
    if DecodeToken(token).Some? {
      assert Encode(Parse(token).value) == token;
    } else {
      forall t: Signed ensures Encode(t) != token {
        ParseEncode(t);
      }
    }
  }

  /** `isTokenExpired` on a decodable token with a non-zero `exp` compares it with the current
      second, strictly: a token whose `exp` is the current second is reported unexpired. A token
      without `exp` is always reported expired. */
  lemma IsTokenExpiredOfSigned(p: Payload, key: string, nowMs: Millis)
    ensures p.exp.Some? && p.exp.value > 0 ==> (IsTokenExpired(Sign(p, key), nowMs) <==> p.exp.value < Seconds(nowMs))
    ensures p.exp.None? ==> IsTokenExpired(Sign(p, key), nowMs)
  {
    DecodeIgnoresSignature(p, key);
  }

  /** In the second an access token expires, `isTokenExpired` still calls it unexpired while
      `verifyAccessToken` already refuses it: the two disagree for that one second. */
  lemma ExpiryBoundaryDisagreement(cfg: JwtConfig, u: User, issuedMs: Millis, nowMs: Millis)
    requires cfg.accessTtl > 0 && Seconds(nowMs) == Seconds(issuedMs) + cfg.accessTtl
    ensures !IsTokenExpired(GenerateAccessToken(cfg, u, issuedMs), nowMs)
    ensures VerifyAccessToken(cfg, GenerateAccessToken(cfg, u, issuedMs), nowMs).Err?
  {
    var p := Payload(AccessClaims(u.id, u.email, u.role), Seconds(issuedMs), Some(Seconds(issuedMs) + cfg.accessTtl));
    assert GenerateAccessToken(cfg, u, issuedMs) == Sign(p, cfg.secret);
    IsTokenExpiredOfSigned(p, cfg.secret, nowMs);
    AccessTokenVerifies(cfg, u, issuedMs, nowMs);
  }

  /** Tokens carry no nonce: two refresh tokens for a user coincide exactly when they were
      issued in the same second. */
  lemma RefreshTokensCoincideWithinSecond(cfg: JwtConfig, u: User, t1: Millis, t2: Millis)
    ensures GenerateRefreshToken(cfg, u, t1) == GenerateRefreshToken(cfg, u, t2) <==> Seconds(t1) == Seconds(t2)
  {
    if GenerateRefreshToken(cfg, u, t1) == GenerateRefreshToken(cfg, u, t2) {
      EncodeInjective(Signed(Payload(RefreshClaims(u.id), Seconds(t1), Some(Seconds(t1) + cfg.refreshTtl)), cfg.refreshSecret),
                      Signed(Payload(RefreshClaims(u.id), Seconds(t2), Some(Seconds(t2) + cfg.refreshTtl)), cfg.refreshSecret));
    }
  }
}
