/** The handlers of backend/src/controllers/userController.ts: `updateProfile`, and the
    administrators' `getAllUsers`, `getUserById` and `deleteUser`.

    An update body is modelled by its string-valued keys. Mongoose casts such a body into a
    `$set` of every key that names a schema path, dotted paths into the subscription snapshot
    included, runs the setters and the validators of exactly those paths, and only then looks
    the user up. */
module UserController {
  import opened Wrappers
  import opened Text
  import opened Types
  import opened Seqs
  import opened Store
  import opened Paging
  import Jwt
  import UserModel

  // The messages of its replies.
  const UsersRetrieved := "Users retrieved successfully"
  const UsersFailed := "Failed to retrieve users"
  const UserRetrieved := "User retrieved successfully"
  const UserFailed := "Failed to retrieve user"
  const UserNotFound := "User not found"
  const ProfileUpdated := "Profile updated successfully"
  const ProfileUpdateFailed := "Failed to update profile"
  const UserDeleted := "User deleted successfully"
  const DeleteFailed := "Failed to delete user"

  /** The keys `updateProfile` deletes from the body. */
  const Protected: set<string> := {"password", "role", "subscription", "refreshTokens"}

  /** The dotted paths into the embedded subscription snapshot. */
  const StatusPath := Dotted("subscription", "status")
  const CustomerPath := Dotted("subscription", "stripeCustomerId")
  const SubscriptionIdPath := Dotted("subscription", "stripeSubscriptionId")
  const PeriodEndPath := Dotted("subscription", "currentPeriodEnd")
  const SnapshotPaths: set<string> := {StatusPath, CustomerPath, SubscriptionIdPath, PeriodEndPath}

  function Dotted(field: string, sub: string): string {
    field + "." + sub
  }

  /** The stripping as written: the four top-level keys go, and nothing else. */
  function StripAsWritten(body: map<string, string>): (r: map<string, string>)
    ensures forall k :: k in r <==> k in body && k !in Protected
    ensures forall k :: k in r ==> r[k] == body[k]
  {
    body - Protected
  }

  /** The first segment of a (possibly dotted) path. */
  function Root(path: string): (r: string)
    ensures |r| <= |path| && r == path[..|r|]
  {
    match IndexOf(path, '.')
    case None => path
    case Some(i) => path[..i]
  }

  /** The stripping as intended: every key under one of the four protected fields goes,
      whether it names the field or a path inside it. */
  function Strip(body: map<string, string>): (r: map<string, string>)
    ensures forall k :: k in r <==> k in body && Root(k) !in Protected
    ensures forall k :: k in r ==> r[k] == body[k]
  {
    map k | k in body && Root(k) !in Protected :: body[k]
  }

  function StatusOf(s: string): (r: Option<SnapshotStatus>)
    ensures r == Some(Active) <==> s == "active"
  {
    if s == "active" then Some(Active) else if s == "inactive" then Some(Inactive)
    else if s == "cancelled" then Some(Cancelled) else None
  }

  function Value(b: map<string, string>, k: string, otherwise: string): string {
    if k in b then b[k] else otherwise
  }

  /** The casts and update validators of the paths the body sets, in schema order. A Date path
      is cast from decimal milliseconds. */
  const RoleCastSuffix := "` is not a valid enum value for path `role`."
  const StatusCastSuffix := "` is not a valid enum value for path `subscription.status`."
  const PeriodEndCastFailed := "Cast to date failed for path `subscription.currentPeriodEnd`"

  function UpdateErrors(b: map<string, string>, emailPattern: string -> bool): (r: seq<string>)
    ensures r == [] <==>
      && ("email" in b ==> UserModel.NormalizeEmail(b["email"]) != "" && emailPattern(UserModel.NormalizeEmail(b["email"])))
      && ("password" in b ==> |b["password"]| >= 6)
      && ("firstName" in b ==> 1 <= |Trim(b["firstName"])| <= 50)
      && ("lastName" in b ==> 1 <= |Trim(b["lastName"])| <= 50)
      && ("role" in b ==> Jwt.RoleOf(b["role"]).Some?)
      && (StatusPath in b ==> StatusOf(b[StatusPath]).Some?)
      && (PeriodEndPath in b ==> ParseNat(b[PeriodEndPath]).Some?)
  {
    ValidatorErrors(b, emailPattern) + CastErrors(b)
  }

  /** The update validators of the user's own fields. */
  function ValidatorErrors(b: map<string, string>, emailPattern: string -> bool): (r: seq<string>)
    ensures r == [] <==>
      && ("email" in b ==> UserModel.NormalizeEmail(b["email"]) != "" && emailPattern(UserModel.NormalizeEmail(b["email"])))
      && ("password" in b ==> |b["password"]| >= 6)
      && ("firstName" in b ==> 1 <= |Trim(b["firstName"])| <= 50)
      && ("lastName" in b ==> 1 <= |Trim(b["lastName"])| <= 50)
  {
    (if "email" in b then UserModel.EmailErrors(UserModel.NormalizeEmail(b["email"]), emailPattern) else [])
    + (if "password" in b then UserModel.PasswordErrors(Plain(b["password"])) else [])
    + (if "firstName" in b then UserModel.NameErrors(Trim(b["firstName"]), "First name") else [])
    + (if "lastName" in b then UserModel.NameErrors(Trim(b["lastName"]), "Last name") else [])
  }

  /** The casts of the enum and Date paths. */
  function CastErrors(b: map<string, string>): (r: seq<string>)
    ensures r == [] <==>
      && ("role" in b ==> Jwt.RoleOf(b["role"]).Some?)
      && (StatusPath in b ==> StatusOf(b[StatusPath]).Some?)
      && (PeriodEndPath in b ==> ParseNat(b[PeriodEndPath]).Some?)
  {
    (if "role" in b && Jwt.RoleOf(b["role"]).None? then ["`" + b["role"] + RoleCastSuffix] else [])
    + (if StatusPath in b && StatusOf(b[StatusPath]).None?
       then ["`" + b[StatusPath] + StatusCastSuffix] else [])
    + (if PeriodEndPath in b && ParseNat(b[PeriodEndPath]).None?
       then [PeriodEndCastFailed] else [])
  }

  /** The snapshot after the body's dotted paths are set; a missing snapshot starts from the default. */
  function SetSnapshot(sub: Option<Snapshot>, b: map<string, string>): Option<Snapshot>
    requires CastErrors(b) == []
  {
    if SnapshotPaths * b.Keys == {} then sub
    else
      var s := sub.GetOr(UserModel.DefaultSnapshot);
      Some(Snapshot(
        if StatusPath in b then StatusOf(b[StatusPath]).value else s.status,
        if CustomerPath in b then Some(b[CustomerPath]) else s.stripeCustomerId,
        if SubscriptionIdPath in b then Some(b[SubscriptionIdPath]) else s.stripeSubscriptionId,
        if PeriodEndPath in b then ParseNat(b[PeriodEndPath]) else s.currentPeriodEnd))
  }

  /** The positional path of the `n`-th refresh token: MongoDB reads a numeric segment of a path
      into an array as an element index. */
  function SlotPath(n: nat): string {
    Dotted("refreshTokens", NatToString(n))
  }

  /** The refresh tokens after the body's positional paths are set. */
  function SetSlots(ts: seq<Token>, b: map<string, string>): seq<Token> {
    seq(|ts|, n requires 0 <= n < |ts| => if SlotPath(n) in b then b[SlotPath(n)] else ts[n])
  }

  /** The stored user after a validated `$set` of the body: the setters applied, a password
      stored as sent, since an update bypasses the pre-save hook, and each refresh token a
      positional path names overwritten. */
  function ApplyUpdate(u: User, b: map<string, string>, emailPattern: string -> bool): (r: User)
    requires UpdateErrors(b, emailPattern) == []
    ensures r.id == u.id && r.createdAt == u.createdAt
    ensures "password" !in b && "role" !in b ==> r.password == u.password && r.role == u.role
    ensures SnapshotPaths * b.Keys == {} ==> r.subscription == u.subscription
    ensures |r.refreshTokens| == |u.refreshTokens|
    ensures forall n :: 0 <= n < |u.refreshTokens| ==>
              r.refreshTokens[n] == if SlotPath(n) in b then b[SlotPath(n)] else u.refreshTokens[n]
  {
    u.(email := if "email" in b then UserModel.NormalizeEmail(b["email"]) else u.email,
       password := if "password" in b then Plain(b["password"]) else u.password,
       firstName := if "firstName" in b then Trim(b["firstName"]) else u.firstName,
       lastName := if "lastName" in b then Trim(b["lastName"]) else u.lastName,
       role := if "role" in b then Jwt.RoleOf(b["role"]).value else u.role,
       subscription := SetSnapshot(u.subscription, b),
       refreshTokens := SetSlots(u.refreshTokens, b))
  }

  /** An update the validators accept keeps a valid user valid, under the same email pattern. */
  lemma ApplyUpdateKeepsValid(u: User, b: map<string, string>, emailPattern: string -> bool)
    requires UpdateErrors(b, emailPattern) == [] && UserModel.ValidationErrors(u, emailPattern) == []
    ensures UserModel.ValidationErrors(ApplyUpdate(u, b, emailPattern), emailPattern) == []
  {
  }

  /** A body that sets the snapshot's dotted paths passes the validators and leaves an active
      subscription behind. */
  lemma DottedBodyAccepted(u: User, b: map<string, string>, nowMs: Millis, emailPattern: string -> bool)
    requires b == map[StatusPath := "active", PeriodEndPath := NatToString(nowMs + 1)]
    ensures UpdateErrors(b, emailPattern) == []
    ensures UserModel.HasActiveSubscription(ApplyUpdate(u, b, emailPattern).subscription, nowMs)
    ensures ApplyUpdate(u, b, emailPattern).email == u.email
  {
    assert StatusPath in SnapshotPaths * b.Keys;
    ParseNatToString(nowMs + 1);
  }

  /** No snapshot path and no positional path is one of the stripped top-level keys. */
  lemma DottedPathsKept(body: map<string, string>)
    requires forall k :: k in body ==> k in SnapshotPaths || exists n: nat :: k == SlotPath(n)
    ensures StripAsWritten(body) == body
  {
    forall k | k in body
      ensures k !in Protected
    {
      if k !in SnapshotPaths {
        var n: nat :| k == SlotPath(n);
        SlotPathLonger(n);
      }
    }
  }

  lemma SlotPathLonger(n: nat)
    ensures |SlotPath(n)| > |"refreshTokens"|
  {
  }

  lemma RootOfDotted(field: string, sub: string)
    requires '.' !in field
    ensures Root(Dotted(field, sub)) == field
  {
    IndexOfAfter(field, '.', sub);
  }

  /** With the intended stripping no update reaches the password, the role, the snapshot or the
      refresh tokens. */
  lemma StripKeepsProtected(u: User, body: map<string, string>, emailPattern: string -> bool)
    requires UpdateErrors(Strip(body), emailPattern) == []
    ensures
      var r := ApplyUpdate(u, Strip(body), emailPattern);
      r.password == u.password && r.role == u.role && r.subscription == u.subscription && r.refreshTokens == u.refreshTokens
  {
    var b := Strip(body);
    StripDropsProtected(body);
    assert SnapshotPaths * b.Keys == {};
    var r := ApplyUpdate(u, b, emailPattern);
    assert forall n :: 0 <= n < |u.refreshTokens| ==> r.refreshTokens[n] == u.refreshTokens[n];
  }

  lemma StripDropsProtected(body: map<string, string>)
    ensures
      var b := Strip(body);
      && "password" !in b && "role" !in b
      && StatusPath !in b && CustomerPath !in b
      && SubscriptionIdPath !in b && PeriodEndPath !in b
      && forall n: nat :: SlotPath(n) !in b
  {
    var b := Strip(body);
    assert "password" !in b by { RootOfPlain("password"); }
    assert "role" !in b by { RootOfPlain("role"); }
    assert StatusPath !in b by { RootOfDotted("subscription", "status"); }
    assert CustomerPath !in b by { RootOfDotted("subscription", "stripeCustomerId"); }
    assert SubscriptionIdPath !in b by { RootOfDotted("subscription", "stripeSubscriptionId"); }
    assert PeriodEndPath !in b by { RootOfDotted("subscription", "currentPeriodEnd"); }
    forall n: nat
      ensures SlotPath(n) !in b
    {
      RootOfDotted("refreshTokens", NatToString(n));
    }
  }

  lemma RootOfPlain(path: string)
    requires '.' !in path
    ensures Root(path) == path
  {
  }

  // ---- updateProfile ----

  /** `findByIdAndUpdate` of the authenticated user `userId` with the already stripped body `b`.
      A duplicate email fails the unique index, answered 500. */
  function ProfileUpdateOf(us: seq<User>, userId: UserId, b: map<string, string>, emailPattern: string -> bool)
    : (Reply, Option<PublicUser>, seq<User>)
  {
    if UpdateErrors(b, emailPattern) != [] then (Reply(500, ProfileUpdateFailed), None, us)
    else match FirstIndex(us, ById(userId))
      case None => (Reply(404, UserNotFound), None, us)
      case Some(i) =>
        var u := ApplyUpdate(us[i], b, emailPattern);
        match FirstIndex(us, ByEmail(u.email))
        case Some(j) =>
          if j != i then (Reply(500, ProfileUpdateFailed), None, us)
          else (Reply(200, ProfileUpdated), Some(UserModel.ToJson(u)), us[i := u])
        case None => (Reply(200, ProfileUpdated), Some(UserModel.ToJson(u)), us[i := u])
  }

  /** `updateProfile` as written: the body loses the four top-level keys and nothing else. */
  function ProfileUpdate(us: seq<User>, userId: UserId, body: map<string, string>, emailPattern: string -> bool)
    : (Reply, Option<PublicUser>, seq<User>)
  {
    ProfileUpdateOf(us, userId, StripAsWritten(body), emailPattern)
  }

  /** `updateProfile` as its comment intends: no path under a protected field reaches the `$set`. */
  function ProfileUpdateIntended(us: seq<User>, userId: UserId, body: map<string, string>, emailPattern: string -> bool)
    : (Reply, Option<PublicUser>, seq<User>)
  {
    ProfileUpdateOf(us, userId, Strip(body), emailPattern)
  }

  /** For any stripped body: an update the casts or validators refuse gets 500, an absent user
      404, and only a 200 writes, rewriting the user with that id alone by the `$set`; the unique
      indexes are kept, and so is the validity of every stored user. */
  lemma ProfileUpdateOfSpec(us: seq<User>, userId: UserId, b: map<string, string>, emailPattern: string -> bool)
    requires UniqueUsers(us)
    ensures
      var (reply, profile, us') := ProfileUpdateOf(us, userId, b, emailPattern);
      && UniqueUsers(us') && |us'| == |us|
      && (reply.status != 200 ==> us' == us && profile.None?)
      && (UpdateErrors(b, emailPattern) != [] ==> reply == Reply(500, ProfileUpdateFailed))
      && (reply.status == 404 <==> UpdateErrors(b, emailPattern) == [] && forall i :: 0 <= i < |us| ==> us[i].id != userId)
      && (reply.status == 200 ==>
            && UpdateErrors(b, emailPattern) == []
            && (exists i :: 0 <= i < |us| && us[i].id == userId)
            && forall i :: 0 <= i < |us| && us[i].id == userId ==>
                 && us'[i] == ApplyUpdate(us[i], b, emailPattern)
                 && profile == Some(UserModel.ToJson(us'[i]))
                 && (forall j :: 0 <= j < |us| && j != i ==> us'[j] == us[j]))
      && (ValidUsers(us, emailPattern) ==> ValidUsers(us', emailPattern))
  {
    var r := ProfileUpdateOf(us, userId, b, emailPattern);
    if UpdateErrors(b, emailPattern) == [] {
      match FirstIndex(us, ById(userId))
      case None =>
        assert r == (Reply(404, UserNotFound), None, us);
      case Some(i) =>
        var u := ApplyUpdate(us[i], b, emailPattern);
        IdHolderUnique(us, userId, i);
        var h := FirstIndex(us, ByEmail(u.email));
        if h.Some? && h.value != i {
          assert r == (Reply(500, ProfileUpdateFailed), None, us);
        } else {
          assert r == (Reply(200, ProfileUpdated), Some(UserModel.ToJson(u)), us[i := u]);
          if h.Some? {
            assert forall k :: 0 <= k < |us| && k != i ==> us[k].email != us[i].email;
          }
          UniqueUsersAfterUpdate(us, i, u);
          if ValidUsers(us, emailPattern) {
            ApplyUpdateKeepsValid(us[i], b, emailPattern);
            ValidUsersAfterWrite(us, i, u, emailPattern);
          }
        }
    }
  }

  /** With unique ids, the user found by id is the only one with that id. */
  lemma IdHolderUnique(us: seq<User>, userId: UserId, i: nat)
    requires UniqueUsers(us) && i < |us| && us[i].id == userId
    ensures forall k :: 0 <= k < |us| && us[k].id == userId ==> k == i
  {
  }

  /** `updateProfile` as written never changes a password or a role, but a 200 otherwise
      rewrites the user with that id by the whole `$set`, snapshot and token slots included. */
  lemma ProfileUpdateSpec(us: seq<User>, userId: UserId, body: map<string, string>, emailPattern: string -> bool)
    requires UniqueUsers(us)
    ensures
      var b := StripAsWritten(body);
      var (reply, profile, us') := ProfileUpdate(us, userId, body, emailPattern);
      && UniqueUsers(us') && |us'| == |us|
      && (reply.status != 200 ==> us' == us && profile.None?)
      && (reply.status == 404 <==> UpdateErrors(b, emailPattern) == [] && forall i :: 0 <= i < |us| ==> us[i].id != userId)
      && (reply.status == 200 ==>
            && UpdateErrors(b, emailPattern) == []
            && (exists i :: 0 <= i < |us| && us[i].id == userId)
            && forall i :: 0 <= i < |us| && us[i].id == userId ==>
                 && us'[i] == ApplyUpdate(us[i], b, emailPattern)
                 && us'[i].password == us[i].password && us'[i].role == us[i].role
                 && profile == Some(UserModel.ToJson(us'[i]))
                 && (forall j :: 0 <= j < |us| && j != i ==> us'[j] == us[j]))
      && (ValidUsers(us, emailPattern) ==> ValidUsers(us', emailPattern))
  {
    ProfileUpdateOfSpec(us, userId, StripAsWritten(body), emailPattern);
  }

  /** As written, a profile update setting the snapshot's dotted paths passes the stripping and
      the validators, and leaves its sender with an active subscription, paid for or not. */
  lemma DottedPathGrantsSubscription(us: seq<User>, k: nat, nowMs: Millis, emailPattern: string -> bool)
    requires UniqueUsers(us) && k < |us|
    ensures
      var body := map[StatusPath := "active", PeriodEndPath := NatToString(nowMs + 1)];
      var (reply, profile, us') := ProfileUpdate(us, us[k].id, body, emailPattern);
      reply == Reply(200, ProfileUpdated) && UserModel.HasActiveSubscription(us'[k].subscription, nowMs)
  {
    var body := map[StatusPath := "active", PeriodEndPath := NatToString(nowMs + 1)];
    DottedPathsKept(body);
    DottedBodyAccepted(us[k], body, nowMs, emailPattern);
    FindByIdUnique(us, k);
    FindByEmailUnique(us, k);
  }

  /** As written, a positional path into the refresh tokens passes the stripping too, and
      overwrites a token of its sender with any string. */
  lemma PositionalPathRewritesToken(us: seq<User>, k: nat, t: Token, emailPattern: string -> bool)
    requires UniqueUsers(us) && k < |us| && |us[k].refreshTokens| > 0
    ensures
      var (reply, profile, us') := ProfileUpdate(us, us[k].id, map[SlotPath(0) := t], emailPattern);
      reply == Reply(200, ProfileUpdated) && us'[k].refreshTokens[0] == t
  {
    var body := map[SlotPath(0) := t];
    assert SlotPath(0) == "refreshTokens.0";
    DottedPathsKept(body);
    assert UpdateErrors(body, emailPattern) == [];
    FindByIdUnique(us, k);
    FindByEmailUnique(us, k);
  }

  /** With the intended stripping a 200 changes none of the protected fields: the password, the
      role, the snapshot and the refresh tokens are those stored before. */
  lemma ProfileUpdateIntendedSpec(us: seq<User>, userId: UserId, body: map<string, string>, emailPattern: string -> bool)
    requires UniqueUsers(us)
    ensures
      var (reply, profile, us') := ProfileUpdateIntended(us, userId, body, emailPattern);
      && UniqueUsers(us') && |us'| == |us|
      && (reply.status != 200 ==> us' == us && profile.None?)
      && (reply.status == 404 <==> UpdateErrors(Strip(body), emailPattern) == [] && forall i :: 0 <= i < |us| ==> us[i].id != userId)
      && (reply.status == 200 ==>
            exists i :: 0 <= i < |us| && us[i].id == userId
              && us'[i].password == us[i].password && us'[i].role == us[i].role
              && us'[i].subscription == us[i].subscription && us'[i].refreshTokens == us[i].refreshTokens
              && profile == Some(UserModel.ToJson(us'[i]))
              && (forall j :: 0 <= j < |us| && j != i ==> us'[j] == us[j]))
  {
    ProfileUpdateOfSpec(us, userId, Strip(body), emailPattern);
    var (reply, profile, us') := ProfileUpdateIntended(us, userId, body, emailPattern);
    if reply.status == 200 {
      var i :| 0 <= i < |us| && us[i].id == userId;
      StripKeepsProtected(us[i], body, emailPattern);
    }
  }

  method UpdateProfile(db: Database, userId: UserId, body: map<string, string>, emailPattern: string -> bool)
    returns (reply: Reply, profile: Option<PublicUser>)
    requires db.Valid()
    modifies db
    ensures db.Valid()
    ensures ProfileUpdate(old(db.users), userId, body, emailPattern) == (reply, profile, db.users)
    ensures db.records == old(db.records) && db.lessons == old(db.lessons) && db.nextId == old(db.nextId)
  {
    ProfileUpdateSpec(db.users, userId, body, emailPattern);
    var data := StripAsWritten(body);
    assert ProfileUpdate(db.users, userId, body, emailPattern) == ProfileUpdateOf(db.users, userId, data, emailPattern);
    if UpdateErrors(data, emailPattern) != [] {
      return Reply(500, ProfileUpdateFailed), None;
    }
    var found := FirstIndex(db.users, ById(userId));
    if found.None? {
      return Reply(404, UserNotFound), None;
    }
    var i := found.value;
    var u := ApplyUpdate(db.users[i], data, emailPattern);
    var holder := FirstIndex(db.users, ByEmail(u.email));
    if holder.Some? && holder.value != i {
      return Reply(500, ProfileUpdateFailed), None;
    }
    db.users := db.users[i := u];
    reply, profile := Reply(200, ProfileUpdated), Some(UserModel.ToJson(u));
  }

  // ---- getAllUsers, getUserById, deleteUser ----

  /** `sort({ createdAt: -1 })`. */
  predicate NewerFirst(a: User, b: User) {
    a.createdAt >= b.createdAt
  }

  function Publics(us: seq<User>): (r: seq<PublicUser>)
    ensures |r| == |us| && forall i :: 0 <= i < |us| ==> r[i] == UserModel.ToJson(us[i])
  {
    seq(|us|, i requires 0 <= i < |us| => UserModel.ToJson(us[i]))
  }

  /** `getAllUsers`: the page of all users, newest first, without their secrets. */
  function GetAllUsers(us: seq<User>, pageParam: Option<string>, limitParam: Option<string>): (Reply, Option<PageOf<PublicUser>>) {
    match Paginate(Publics(SortBy(us, NewerFirst)), pageParam, limitParam)
    case None => (Reply(500, UsersFailed), None)
    case Some(pg) => (Reply(200, UsersRetrieved), Some(pg))
  }

  /** The page counts every user, holds at most `limit` of them, each the public view of a stored
      user, and pages follow one another in creation order, newest first. */
  lemma GetAllUsersSpec(us: seq<User>, pageParam: Option<string>, limitParam: Option<string>)
    ensures
      var (reply, pg) := GetAllUsers(us, pageParam, limitParam);
      && (reply.status == 200 <==> pg.Some?)
      && (pg.Some? ==>
            && pg.value.total == |us|
            && (pg.value.limit > 0 ==> |pg.value.items| <= pg.value.limit)
            && (forall i :: 0 <= i < |pg.value.items| ==> pg.value.items[i] in Publics(us))
            && forall i, j :: 0 <= i < j < |pg.value.items| ==> pg.value.items[i].createdAt >= pg.value.items[j].createdAt)
  {
    var all := Publics(SortBy(us, NewerFirst));
    PublicsNewestFirst(us);
    UsersPage(us, all, pageParam, limitParam);
  }

  lemma UsersPage(us: seq<User>, all: seq<PublicUser>, pageParam: Option<string>, limitParam: Option<string>)
    requires |all| == |us| && forall i :: 0 <= i < |all| ==> all[i] in Publics(us)
    requires forall i, j :: 0 <= i < j < |all| ==> all[i].createdAt >= all[j].createdAt
    ensures var pg := Paginate(all, pageParam, limitParam);
      pg.Some? ==>
        && pg.value.total == |us|
        && (pg.value.limit > 0 ==> |pg.value.items| <= pg.value.limit)
        && (forall i :: 0 <= i < |pg.value.items| ==> pg.value.items[i] in Publics(us))
        && forall i, j :: 0 <= i < j < |pg.value.items| ==> pg.value.items[i].createdAt >= pg.value.items[j].createdAt
  {
    PageItemsIn(all, pageParam, limitParam);
    PageKeepsOrder(all, pageParam, limitParam);
    var pg := Paginate(all, pageParam, limitParam);
    if pg.Some? {
      assert pg.value.total == |all|;
      MembersStayIn(pg.value.items, all, Publics(us));
    }
  }

  lemma MembersStayIn(items: seq<PublicUser>, all: seq<PublicUser>, views: seq<PublicUser>)
    requires forall i :: 0 <= i < |all| ==> all[i] in views
    requires forall i :: 0 <= i < |items| ==> items[i] in all
    ensures forall i :: 0 <= i < |items| ==> items[i] in views
  {
    forall i | 0 <= i < |items| ensures items[i] in views {
      var m :| 0 <= m < |all| && all[m] == items[i];
    }
  }

  /** The sorted public views are views of stored users, newest first. */
  lemma PublicsNewestFirst(us: seq<User>)
    ensures var all := Publics(SortBy(us, NewerFirst));
      && |all| == |us| && (forall i :: 0 <= i < |all| ==> all[i] in Publics(us))
      && forall i, j :: 0 <= i < j < |all| ==> all[i].createdAt >= all[j].createdAt
  {
    var sorted := SortBy(us, NewerFirst);
    NewestFirst(us);
    var all := Publics(sorted);
    forall i | 0 <= i < |all| ensures all[i] in Publics(us) {
      assert sorted[i] in multiset(us);
      var k :| 0 <= k < |us| && us[k] == sorted[i];
      assert Publics(us)[k] == all[i];
    }
  }

  /** A page of matches sorted newest first is itself sorted newest first. */
  lemma PageKeepsOrder(all: seq<PublicUser>, pageParam: Option<string>, limitParam: Option<string>)
    requires forall i, j :: 0 <= i < j < |all| ==> all[i].createdAt >= all[j].createdAt
    ensures var pg := Paginate(all, pageParam, limitParam);
      pg.Some? ==> forall i, j :: 0 <= i < j < |pg.value.items| ==> pg.value.items[i].createdAt >= pg.value.items[j].createdAt
  {
    var pg := Paginate(all, pageParam, limitParam);
    if pg.Some? {
      WindowKeepsOrder(all, pg.value.items, Skip(pg.value.page, pg.value.limit));
    }
  }

  lemma WindowKeepsOrder(all: seq<PublicUser>, items: seq<PublicUser>, skip: int)
    requires skip >= 0 && forall i :: 0 <= i < |items| ==> skip + i < |all| && items[i] == all[skip + i]
    requires forall i, j :: 0 <= i < j < |all| ==> all[i].createdAt >= all[j].createdAt
    ensures forall i, j :: 0 <= i < j < |items| ==> items[i].createdAt >= items[j].createdAt
  {
    forall i, j | 0 <= i < j < |items| ensures items[i].createdAt >= items[j].createdAt {
      var a, b := items[i], items[j];
      assert a == all[skip + i] && b == all[skip + j];
    }
  }

  lemma NewerFirstIsTotalPreorder()
    ensures TotalPreorder(NewerFirst)
  {
  }

  /** The sorted users are the stored ones, newest first. */
  lemma NewestFirst(us: seq<User>)
    ensures var sorted := SortBy(us, NewerFirst);
      && multiset(sorted) == multiset(us) && |sorted| == |us|
      && forall i, j :: 0 <= i < j < |sorted| ==> sorted[i].createdAt >= sorted[j].createdAt
  {
    NewerFirstIsTotalPreorder();
    SortBySortsAndPermutes(us, NewerFirst);
    var sorted := SortBy(us, NewerFirst);
    assert |sorted| == |multiset(sorted)| == |multiset(us)| == |us|;
    forall i, j | 0 <= i < j < |sorted| ensures sorted[i].createdAt >= sorted[j].createdAt {
      assert NewerFirst(sorted[i], sorted[j]);
    }
  }

  /** `getUserById`. An id that does not cast throws, answered 500. */
  function GetUserById(us: seq<User>, idParam: string): (r: (Reply, Option<PublicUser>))
    ensures r.0.status == 200 <==> r.1.Some?
    ensures r.0.status == 404 <==> ParseNat(idParam).Some? && forall i :: 0 <= i < |us| ==> us[i].id != ParseNat(idParam).value
    ensures r.1.Some? ==> ParseNat(idParam).Some? && exists i :: 0 <= i < |us| && us[i].id == ParseNat(idParam).value && r.1.value == UserModel.ToJson(us[i])
  {
    match ParseNat(idParam)
    case None => (Reply(500, UserFailed), None)
    case Some(id) =>
      match FirstIndex(us, ById(id))
      case None => (Reply(404, UserNotFound), None)
      case Some(i) => (Reply(200, UserRetrieved), Some(UserModel.ToJson(us[i])))
  }

  /** `deleteUser`. */
  function UserDeletion(us: seq<User>, idParam: string): (Reply, seq<User>) {
    match ParseNat(idParam)
    case None => (Reply(500, DeleteFailed), us)
    case Some(id) =>
      match FirstIndex(us, ById(id))
      case None => (Reply(404, UserNotFound), us)
      case Some(i) => (Reply(200, UserDeleted), us[..i] + us[i + 1..])
  }

  /** Deleting an absent id answers 404 and writes nothing; deleting a stored one leaves no user
      with that id and every other user in place. */
  lemma UserDeletionSpec(us: seq<User>, idParam: string)
    requires UniqueUsers(us)
    ensures
      var (reply, us') := UserDeletion(us, idParam);
      && UniqueUsers(us')
      && (reply.status != 200 ==> us' == us)
      && (reply.status == 404 <==> ParseNat(idParam).Some? && forall i :: 0 <= i < |us| ==> us[i].id != ParseNat(idParam).value)
      && (reply.status == 200 ==>
            && |us'| == |us| - 1
            && (forall i :: 0 <= i < |us'| ==> us'[i].id != ParseNat(idParam).value)
            && forall u :: u in us && u.id != ParseNat(idParam).value ==> u in us')
  {
    if ParseNat(idParam).Some? {
      var id := ParseNat(idParam).value;
      match FirstIndex(us, ById(id))
      case None =>
      case Some(i) =>
        UniqueUsersAfterRemove(us, i);
        var us' := us[..i] + us[i + 1..];
        assert forall j :: 0 <= j < |us'| ==> us'[j] == if j < i then us[j] else us[j + 1];
        forall u | u in us && u.id != id ensures u in us' {
          var k :| 0 <= k < |us| && us[k] == u;
          if k < i { assert us'[k] == u; } else { assert us'[k - 1] == u; }
        }
    }
  }

  /** Removing a user keeps every remaining one valid. */
  lemma UserDeletionKeepsValidUsers(us: seq<User>, idParam: string, emailPattern: string -> bool)
    requires ValidUsers(us, emailPattern)
    ensures ValidUsers(UserDeletion(us, idParam).1, emailPattern)
  {
    match ParseNat(idParam)
    case None =>
    case Some(id) =>
      match FirstIndex(us, ById(id))
      case None =>
      case Some(i) => ValidUsersAfterRemove(us, i, emailPattern);
  }

  method DeleteUser(db: Database, idParam: string) returns (reply: Reply)
    requires db.Valid()
    modifies db
    ensures db.Valid()
    ensures (reply, db.users) == UserDeletion(old(db.users), idParam)
    ensures db.records == old(db.records) && db.lessons == old(db.lessons) && db.nextId == old(db.nextId)
  {
    var id := ParseNat(idParam);
    if id.None? {
      return Reply(500, DeleteFailed);
    }
    var found := FirstIndex(db.users, ById(id.value));
    if found.None? {
      return Reply(404, UserNotFound);
    }
    var i := found.value;
    ghost var us := db.users;
    UniqueUsersAfterRemove(db.users, i);
    db.users := db.users[..i] + db.users[i + 1..];
    assert forall j :: 0 <= j < |db.users| ==> db.users[j] == if j < i then us[j] else us[j + 1];
    reply := Reply(200, UserDeleted);
  }
}
