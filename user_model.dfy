/** The user document, after backend/src/models/User.ts: field setters and defaults, the schema
    validators, the pre-save password hashing hook, `comparePassword`, `toJSON` and
    `hasActiveSubscription`. */
module UserModel {
  import opened Wrappers
  import opened Text
  import opened Types

  /** The snapshot a new user starts with: only `status`, at its default 'inactive'. */
  const DefaultSnapshot := Snapshot(Inactive, None, None, None)

  /** The email setters `lowercase` and `trim`, applied in that order. */
  function NormalizeEmail(e: string): string {
    Trim(ToLower(e))
  }

  lemma LowerKeepsWhitespace(c: char)
    ensures IsWhitespace(LowerChar(c)) == IsWhitespace(c)
  {
  }

  lemma {:induction false} TrimStartOfLower(s: string)
    ensures TrimStart(ToLower(s)) == ToLower(TrimStart(s))
  {
    if s != [] {
      LowerKeepsWhitespace(s[0]);
      assert ToLower(s)[1..] == ToLower(s[1..]);
      TrimStartOfLower(s[1..]);
    }
  }

  lemma {:induction false} TrimEndOfLower(s: string)
    ensures TrimEnd(ToLower(s)) == ToLower(TrimEnd(s))
  {
    if s != [] {
      LowerKeepsWhitespace(s[|s| - 1]);
      assert ToLower(s)[..|s| - 1] == ToLower(s[..|s| - 1]);
      TrimEndOfLower(s[..|s| - 1]);
    }
  }

  lemma LowerIdempotent(s: string)
    ensures ToLower(ToLower(s)) == ToLower(s)
  {
  }

  /** A stored email is a fixed point of the setters: saving it again stores the same string. */
  lemma NormalizeEmailIdempotent(e: string)
    ensures NormalizeEmail(NormalizeEmail(e)) == NormalizeEmail(e)
  {
    var t := NormalizeEmail(e);
    TrimStartOfLower(t);
    TrimEndOfLower(TrimStart(t));
    assert Trim(ToLower(t)) == ToLower(Trim(t));
    TrimIdempotent(ToLower(e));
    LowerOfTrimmedLower(e);
  }

  /** Lowering an already lowered, trimmed string changes nothing. */
  lemma LowerOfTrimmedLower(e: string)
    ensures ToLower(Trim(ToLower(e))) == Trim(ToLower(e))
  {
    var l := ToLower(e);
    TrimStartOfLower(l);
    TrimEndOfLower(TrimStart(l));
    LowerIdempotent(e);
  }

  /** `new User({ email, password, firstName, lastName })`: the setters applied, role 'user',
      the default snapshot and an empty refresh-token list. */
  function NewUser(id: UserId, email: string, password: string, firstName: string, lastName: string, nowMs: Millis): (u: User)
    ensures u.id == id && u.createdAt == nowMs
    ensures u.email == NormalizeEmail(email) && u.password == Plain(password)
    ensures u.firstName == Trim(firstName) && u.lastName == Trim(lastName)
    ensures u.role == UserRole && u.subscription == Some(DefaultSnapshot) && u.refreshTokens == []
  {
    User(id, NormalizeEmail(email), Plain(password), Trim(firstName), Trim(lastName), UserRole,
         Some(DefaultSnapshot), [], nowMs)
  }

  /** The length of the stored password string; a bcrypt hash is 60 characters long. */
  function PasswordLength(p: Password): nat {
    match p
    case Plain(t) => |t|
    case Hashed(_, _) => 60
  }

  /** The schema validators, in declaration order: the message of every failing one.
      `emailPattern` is the schema's `match` expression for the email, a predicate on the
      stored string. */
  function ValidationErrors(u: User, emailPattern: string -> bool): (r: seq<string>)
    ensures r == [] <==>
      && u.email != "" && emailPattern(u.email)
      && PasswordLength(u.password) >= 6
      && 1 <= |u.firstName| <= 50 && 1 <= |u.lastName| <= 50
  {
    EmailErrors(u.email, emailPattern) + PasswordErrors(u.password)
    + NameErrors(u.firstName, "First name") + NameErrors(u.lastName, "Last name")
  }

  function EmailErrors(email: string, emailPattern: string -> bool): (r: seq<string>)
    ensures r == [] <==> email != "" && emailPattern(email)
  {
    if email == "" then ["Email is required"]
    else if !emailPattern(email) then ["Please enter a valid email"] else []
  }

  function PasswordErrors(p: Password): (r: seq<string>)
    ensures r == [] <==> PasswordLength(p) >= 6
  {
    if PasswordLength(p) == 0 then ["Password is required"]
    else if PasswordLength(p) < 6 then ["Password must be at least 6 characters long"] else []
  }

  /** The `required` and `maxlength: 50` validators of a name path. */
  function NameErrors(name: string, path: string): (r: seq<string>)
    ensures r == [] <==> 1 <= |name| <= 50
  {
    if name == "" then [path + " is required"]
    else if |name| > 50 then [path + " cannot exceed 50 characters"] else []
  }

  /** The pre-save hook: a modified password is replaced by its hash; otherwise nothing changes. */
  function PreSave(u: User, passwordModified: bool, salt: nat): User {
    if passwordModified then u.(password := Hashed(u.password, salt)) else u
  }

  /** `comparePassword`: bcrypt accepts the candidate exactly when the stored value is a hash
      of that very plaintext; a stored value that is no hash matches nothing. */
  predicate ComparePassword(stored: Password, candidate: string) {
    stored.Hashed? && stored.input == Plain(candidate)
  }

  /** Saving with a modified password never stores the plaintext, and the hash stored accepts
      exactly the password that was set. */
  lemma ModifiedSaveHashes(u: User, salt: nat, pw: string, candidate: string)
    requires u.password == Plain(pw)
    ensures PreSave(u, true, salt).password.Hashed?
    ensures ComparePassword(PreSave(u, true, salt).password, candidate) <==> candidate == pw
  {
  }

  /** Hash once: a save that did not touch the password keeps the stored hash, so after any
      number of later saves the password that was set still logs in. */
  lemma {:induction false} LaterSavesKeepHash(u: User, salts: seq<nat>, pw: string, candidate: string)
    requires u.password.Hashed? && u.password.input == Plain(pw)
    ensures ComparePassword(SaveUnmodified(u, salts).password, candidate) <==> candidate == pw
  {
    if salts != [] {
      LaterSavesKeepHash(PreSave(u, false, salts[0]), salts[1..], pw, candidate);
    }
  }

  /** A sequence of saves that leave the password unmodified. */
  function SaveUnmodified(u: User, salts: seq<nat>): User {
    if salts == [] then u else SaveUnmodified(PreSave(u, false, salts[0]), salts[1..])
  }

  /** A document that validated still validates once its password is hashed and its refresh
      tokens are replaced: neither path constrains what the other validators check, and a hash
      is long enough. */
  lemma HashedStaysValid(u: User, emailPattern: string -> bool, salt: nat)
    requires ValidationErrors(u, emailPattern) == []
    ensures forall tokens :: ValidationErrors(PreSave(u, true, salt).(refreshTokens := tokens), emailPattern) == []
  {
  }

  /** Why the rule matters: hashing an already hashed password would lock the user out. */
  lemma DoubleHashLocksOut(u: User, s1: nat, s2: nat, pw: string)
    requires u.password == Plain(pw)
    ensures !ComparePassword(PreSave(PreSave(u, true, s1), true, s2).password, pw)
  {
  }

  /** `toJSON` (and `.select('-password -refreshTokens')`): the user without its secrets. */
  function ToJson(u: User): (r: PublicUser)
    ensures r.id == u.id && r.email == u.email && r.firstName == u.firstName && r.lastName == u.lastName
    ensures r.role == u.role && r.subscription == u.subscription && r.createdAt == u.createdAt
  {
    PublicUser(u.id, u.email, u.firstName, u.lastName, u.role, u.subscription, u.createdAt)
  }

  /** What `toJSON` exposes does not depend on the password or the refresh tokens. */
  lemma ToJsonHidesSecrets(u: User, pw: Password, tokens: seq<Token>)
    ensures ToJson(u.(password := pw, refreshTokens := tokens)) == ToJson(u)
  {
  }

  /** `hasActiveSubscription`: status 'active' and a period end strictly after now. */
  predicate HasActiveSubscription(sub: Option<Snapshot>, nowMs: Millis) {
    && sub.Some?
    && sub.value.status == Active
    && sub.value.currentPeriodEnd.Some?
    && sub.value.currentPeriodEnd.value > nowMs
  }

  /** Entitlement needs all three of status, period end and a future end: no other status, no
      missing end and no end at or before now is ever entitled. */
  lemma EntitlementCases(sub: Option<Snapshot>, nowMs: Millis)
    ensures sub.None? ==> !HasActiveSubscription(sub, nowMs)
    ensures sub.Some? && sub.value.status != Active ==> !HasActiveSubscription(sub, nowMs)
    ensures sub.Some? && sub.value.currentPeriodEnd.None? ==> !HasActiveSubscription(sub, nowMs)
    ensures sub.Some? && sub.value.currentPeriodEnd == Some(nowMs) ==> !HasActiveSubscription(sub, nowMs)
    ensures sub.Some? && sub.value.status == Active && sub.value.currentPeriodEnd.Some? ==>
              (HasActiveSubscription(sub, nowMs) <==> nowMs < sub.value.currentPeriodEnd.value)
  {
  }

  /** Once lapsed, a snapshot stays lapsed as time goes on. */
  lemma EntitlementLapsesForGood(sub: Option<Snapshot>, t1: Millis, t2: Millis)
    requires t1 <= t2 && !HasActiveSubscription(sub, t1)
    ensures !HasActiveSubscription(sub, t2)
  {
  }

  /** A user document as held by a controller: the fields and Mongoose's record of whether
      the password was assigned since the document was created or loaded. */
  class UserDocument {
    var doc: User
    var passwordModified: bool

    /** `new User({...})`: every path of a new document counts as modified. */
    constructor Create(id: UserId, email: string, password: string, firstName: string, lastName: string, nowMs: Millis)
      ensures doc == NewUser(id, email, password, firstName, lastName, nowMs) && passwordModified
    {
      doc := NewUser(id, email, password, firstName, lastName, nowMs);
      passwordModified := true;
    }

    /** A document loaded from the collection; nothing is modified yet. */
    constructor Load(u: User)
      ensures doc == u && !passwordModified
    {
      doc := u;
      passwordModified := false;
    }

    /** `user.refreshTokens.push(t)`. */
    method PushRefreshToken(t: Token)
      modifies this
      ensures doc == old(doc).(refreshTokens := old(doc).refreshTokens + [t])
      ensures passwordModified == old(passwordModified)
    {
      doc := doc.(refreshTokens := doc.refreshTokens + [t]);
    }

    /** `user.refreshTokens = tokens`. */
    method SetRefreshTokens(tokens: seq<Token>)
      modifies this
      ensures doc == old(doc).(refreshTokens := tokens)
      ensures passwordModified == old(passwordModified)
    {
      doc := doc.(refreshTokens := tokens);
    }

    /** `user.subscription = s`. */
    method SetSubscription(s: Snapshot)
      modifies this
      ensures doc == old(doc).(subscription := Some(s))
      ensures passwordModified == old(passwordModified)
    {
      doc := doc.(subscription := Some(s));
    }

    /** `save()`: the validators run first and a failure leaves the document as it was;
        otherwise the pre-save hook runs and the saved document is returned. */
    method Save(salt: nat, emailPattern: string -> bool) returns (r: Saved<User>)
      modifies this
      ensures ValidationErrors(old(doc), emailPattern) != [] ==>
                r == Invalid(ValidationErrors(old(doc), emailPattern)) && doc == old(doc)
                && passwordModified == old(passwordModified)
      ensures ValidationErrors(old(doc), emailPattern) == [] ==>
                doc == PreSave(old(doc), old(passwordModified), salt) && r == Stored(doc) && !passwordModified
    {
      var errors := ValidationErrors(doc, emailPattern);
      if errors != [] {
        return Invalid(errors);
      }
      if passwordModified {
        doc := doc.(password := Hashed(doc.password, salt));
      }
      passwordModified := false;
      r := Stored(doc);
    }
  }
}
