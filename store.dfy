/** The three MongoDB collections the backend keeps, held in memory in natural order, with the
    unique indexes of the schemas as the invariant, and the lookups the controllers issue. */
module Store {
  import opened Wrappers
  import opened Types
  import opened Seqs
  import SubscriptionModel
  import UserModel

  /** The User collection's unique `_id` and `email`. */
  predicate UniqueUsers(us: seq<User>) {
    forall i, j :: 0 <= i < j < |us| ==> us[i].id != us[j].id && us[i].email != us[j].email
  }

  predicate UniqueLessons(ls: seq<Lesson>) {
    forall i, j :: 0 <= i < j < |ls| ==> ls[i].id != ls[j].id
  }

  // ---- the filters of the lookups, named so that every query uses the same one ----

  function ById(id: UserId): User -> bool {
    (u: User) => u.id == id
  }

  function ByEmail(email: string): User -> bool {
    (u: User) => u.email == email
  }

  /** `{ 'subscription.stripeCustomerId': c }`. */
  function ByCustomer(c: string): User -> bool {
    (u: User) => u.subscription.Some? && u.subscription.value.stripeCustomerId == Some(c)
  }

  /** `{ refreshTokens: t }`: the array holds `t`. */
  function HoldingToken(t: Token): User -> bool {
    (u: User) => t in u.refreshTokens
  }

  /** `{ userId: id }` on the Subscription collection. */
  function OfUser(id: UserId): SubscriptionRecord -> bool {
    (r: SubscriptionRecord) => r.userId == id
  }

  function LessonById(id: LessonId): Lesson -> bool {
    (l: Lesson) => l.id == id
  }

  /** With unique ids, the user found by id is the one with that id, wherever it sits. */
  lemma FindByIdUnique(us: seq<User>, k: nat)
    requires UniqueUsers(us) && k < |us|
    ensures FirstIndex(us, ById(us[k].id)) == Some(k)
  {
    var r := FirstIndex(us, ById(us[k].id));
    assert ById(us[k].id)(us[k]);
    assert r.Some?;
    assert r.value <= k;
    assert us[r.value].id == us[k].id;
  }

  /** Rewriting a user without touching its id or email keeps the collection's indexes. */
  lemma UniqueUsersAfterWrite(us: seq<User>, i: nat, u: User)
    requires UniqueUsers(us) && i < |us| && u.id == us[i].id && u.email == us[i].email
    ensures UniqueUsers(us[i := u])
  {
  }

  /** Rewriting a user under its own id with an email no other user holds keeps the indexes. */
  lemma UniqueUsersAfterUpdate(us: seq<User>, i: nat, u: User)
    requires UniqueUsers(us) && i < |us| && u.id == us[i].id
    requires forall j :: 0 <= j < |us| && j != i ==> us[j].email != u.email
    ensures UniqueUsers(us[i := u])
  {
  }

  /** Removing a user keeps the indexes. */
  lemma UniqueUsersAfterRemove(us: seq<User>, i: nat)
    requires UniqueUsers(us) && i < |us|
    ensures UniqueUsers(us[..i] + us[i + 1..])
  {
    var r := us[..i] + us[i + 1..];
    assert forall j :: 0 <= j < |r| ==> r[j] == if j < i then us[j] else us[j + 1];
  }

  /** Appending a user whose id and email are both new keeps the collection's indexes. */
  lemma UniqueUsersAfterAppend(us: seq<User>, u: User)
    requires UniqueUsers(us) && (forall i :: 0 <= i < |us| ==> us[i].id != u.id)
    requires FirstIndex(us, ByEmail(u.email)).None?
    ensures UniqueUsers(us + [u])
  {
    assert forall i :: 0 <= i < |us| ==> !ByEmail(u.email)(us[i]);
    assert forall i :: 0 <= i < |us| ==> (us + [u])[i] == us[i];
  }

  /** Appending a lesson under a fresh id keeps the lesson ids unique and below `bound`. */
  lemma FreshLessonAppended(ls: seq<Lesson>, l: Lesson, bound: nat)
    requires UniqueLessons(ls) && (forall i :: 0 <= i < |ls| ==> ls[i].id != l.id)
    requires (forall i :: 0 <= i < |ls| ==> ls[i].id < bound) && l.id < bound
    ensures UniqueLessons(ls + [l])
    ensures forall i :: 0 <= i < |ls + [l]| ==> (ls + [l])[i].id < bound
  {
    assert forall i :: 0 <= i < |ls| ==> (ls + [l])[i] == ls[i];
  }

  /** Every stored user passes the schema's validators under the email pattern `emailPattern`. */
  predicate ValidUsers(us: seq<User>, emailPattern: string -> bool) {
    forall i :: 0 <= i < |us| ==> UserModel.ValidationErrors(us[i], emailPattern) == []
  }

  /** Changing users only in their snapshots and refresh tokens, which no validator reads,
      keeps every one of them valid. */
  lemma ValidUsersKept(us: seq<User>, us': seq<User>, emailPattern: string -> bool)
    requires ValidUsers(us, emailPattern) && |us'| == |us|
    requires forall i :: 0 <= i < |us| ==>
               us'[i] == us[i].(subscription := us'[i].subscription, refreshTokens := us'[i].refreshTokens)
    ensures ValidUsers(us', emailPattern)
  {
    forall i | 0 <= i < |us'|
      ensures UserModel.ValidationErrors(us'[i], emailPattern) == []
    {
      assert UserModel.ValidationErrors(us[i], emailPattern) == [];
    }
  }

  lemma ValidUsersAfterWrite(us: seq<User>, i: nat, u: User, emailPattern: string -> bool)
    requires ValidUsers(us, emailPattern) && i < |us| && UserModel.ValidationErrors(u, emailPattern) == []
    ensures ValidUsers(us[i := u], emailPattern)
  {
  }

  lemma ValidUsersAfterRemove(us: seq<User>, i: nat, emailPattern: string -> bool)
    requires ValidUsers(us, emailPattern) && i < |us|
    ensures ValidUsers(us[..i] + us[i + 1..], emailPattern)
  {
    var r := us[..i] + us[i + 1..];
    assert forall j :: 0 <= j < |r| ==> r[j] == if j < i then us[j] else us[j + 1];
  }

  lemma ValidUsersAfterAppend(us: seq<User>, u: User, emailPattern: string -> bool)
    requires ValidUsers(us, emailPattern) && UserModel.ValidationErrors(u, emailPattern) == []
    ensures ValidUsers(us + [u], emailPattern)
  {
    assert forall i :: 0 <= i < |us| ==> (us + [u])[i] == us[i];
  }

  /** With unique emails, the user found by email is the one with that email, wherever it sits. */
  lemma FindByEmailUnique(us: seq<User>, k: nat)
    requires UniqueUsers(us) && k < |us|
    ensures FirstIndex(us, ByEmail(us[k].email)) == Some(k)
  {
    var r := FirstIndex(us, ByEmail(us[k].email));
    assert ByEmail(us[k].email)(us[k]);
    assert r.Some?;
    assert r.value <= k;
    assert us[r.value].email == us[k].email;
  }

  /** The database: the collections, and the source of fresh ObjectIds. */
  class Database {
    var users: seq<User>
    var records: seq<SubscriptionRecord>
    var lessons: seq<Lesson>
    var nextId: nat

    /** The unique indexes hold and every id in use was handed out before `nextId`. */
    ghost predicate Valid()
      reads this
    {
      && UniqueUsers(users)
      && SubscriptionModel.UniqueRecords(records)
      && UniqueLessons(lessons)
      && (forall i :: 0 <= i < |users| ==> users[i].id < nextId)
      && (forall i :: 0 <= i < |lessons| ==> lessons[i].id < nextId)
    }

    constructor ()
      ensures Valid() && users == [] && records == [] && lessons == [] && nextId == 0
    {
      users, records, lessons, nextId := [], [], [], 0;
    }

    /** `insertOne(u)` on the User collection, for a document whose id was handed out and is
        not in use and whose email no user holds. */
    method InsertUser(u: User)
      requires Valid() && u.id < nextId
      requires forall i :: 0 <= i < |users| ==> users[i].id != u.id
      requires FirstIndex(users, ByEmail(u.email)).None?
      modifies this
      ensures Valid()
      ensures users == old(users) + [u]
      ensures records == old(records) && lessons == old(lessons) && nextId == old(nextId)
    {
      UniqueUsersAfterAppend(users, u);
      users := users + [u];
      assert forall i :: 0 <= i < |old(users)| ==> users[i] == old(users)[i];
    }

    /** A fresh ObjectId, different from every id in use. */
    method NewId() returns (id: nat)
      requires Valid()
      modifies this
      ensures Valid()
      ensures id == old(nextId) && nextId == id + 1
      ensures users == old(users) && records == old(records) && lessons == old(lessons)
      ensures forall i :: 0 <= i < |users| ==> users[i].id != id
      ensures forall i :: 0 <= i < |lessons| ==> lessons[i].id != id
    {
      id := nextId;
      nextId := nextId + 1;
    }
  }
}
