/** The handlers of backend/src/controllers/lessonController.ts: the three list queries with
    their premium override and pagination, the premium gate of `getLessonById`, and the
    create, update and delete handlers over the Lesson collection. */
module LessonController {
  import opened Wrappers
  import opened Text
  import opened Types
  import opened Seqs
  import opened Store
  import opened Paging
  import UserModel
  import opened LessonModel

  // The messages of its replies.
  const LessonsRetrieved := "Lessons retrieved successfully"
  const LessonsFailed := "Failed to retrieve lessons"
  const SearchRetrieved := "Search completed successfully"
  const SearchFailed := "Failed to search lessons"
  const SearchTermRequired := "Search term is required"
  const CategoryFailed := "Failed to retrieve lessons by category"
  const LessonRetrieved := "Lesson retrieved successfully"
  const LessonFailed := "Failed to retrieve lesson"
  const LessonNotFound := "Lesson not found"
  const PremiumRequired := "Premium subscription required to access this lesson"
  const LessonCreated := "Lesson created successfully"
  const CreateFailed := "Failed to create lesson"
  const LessonUpdated := "Lesson updated successfully"
  const UpdateFailed := "Failed to update lesson"
  const LessonDeleted := "Lesson deleted successfully"
  const DeleteFailed := "Failed to delete lesson"

  /** The query-string parameters the list handlers read, as the route's sanitizers left them:
      `category` and `search` arrive trimmed (`LessonRoutes.ParamsOf`). */
  datatype ListParams = ListParams(
    page: Option<string>,
    limit: Option<string>,
    category: Option<string>,
    isPremium: Option<string>,
    search: Option<string>)

  /** Whether the caller attached by `optionalAuth` may see premium lessons. */
  predicate Entitled(user: Option<PublicUser>, nowMs: Millis) {
    user.Some? && UserModel.HasActiveSubscription(user.value.subscription, nowMs)
  }

  /** The `isPremium` constraint: 'true' asks for premium lessons, any other value for free ones,
      and no value for no constraint; a caller who is not entitled always gets free ones. */
  function PremiumConstraint(param: Option<string>, entitled: bool): (r: Option<bool>)
    ensures !entitled ==> r == Some(false)
    ensures entitled && param.None? ==> r.None?
    ensures entitled && param.Some? ==> r == Some(param.value == "true")
  {
    if !entitled then Some(false)
    else if param.Some? then Some(param.value == "true")
    else None
  }

  /** The query a list handler builds: the category when it is non-empty (`getLessonsByCategory`
      passes its path parameter, which always is), the premium constraint, and the search term. */
  function ListQuery(category: Option<string>, isPremium: Option<string>, search: Option<string>, entitled: bool): LessonQuery {
    LessonQuery(if category.Some? && category.value != "" then category else None,
                PremiumConstraint(isPremium, entitled), search)
  }

  /** The handlers' successive assignments to their `query` object. */
  method BuildQuery(category: Option<string>, isPremium: Option<string>, search: Option<string>, entitled: bool)
    returns (q: LessonQuery)
    ensures q == ListQuery(category, isPremium, search, entitled)
  {
    q := LessonQuery(None, None, search);
    if category.Some? && category.value != "" {
      q := q.(category := category);
    }
    if isPremium.Some? {
      q := q.(isPremium := Some(isPremium.value == "true"));
    }
    if !entitled {
      q := q.(isPremium := Some(false));
    }
  }

  /** The reply and page of a list handler running `q`: `countDocuments` counts what the query
      accepts, and the page is cut from the sorted matches. */
  function List(ls: seq<Lesson>, q: LessonQuery, rx: RegexTest, p: ListParams, ok: string, failed: string)
    : (Reply, Option<PageOf<Lesson>>)
  {
    Respond(Find(ls, q, rx), p, ok, failed)
  }

  /** The reply to the sorted matches `all`: the page, or a 500 where the query fails. */
  function Respond(all: seq<Lesson>, p: ListParams, ok: string, failed: string): (Reply, Option<PageOf<Lesson>>) {
    match Paginate(all, p.page, p.limit)
    case None => (Reply(500, failed), None)
    case Some(pg) => (Reply(200, ok), Some(pg))
  }

  /** `getAllLessons`. */
  function GetAllLessons(ls: seq<Lesson>, rx: RegexTest, p: ListParams, user: Option<PublicUser>, nowMs: Millis)
    : (Reply, Option<PageOf<Lesson>>)
  {
    List(ls, ListQuery(p.category, p.isPremium, None, Entitled(user, nowMs)), rx, p,
         LessonsRetrieved, LessonsFailed)
  }

  /** `searchLessons`: without a search term nothing is queried. `compiles` is whether a term
      is a valid pattern: `new RegExp` throws on any other, and the handler answers 500. */
  function SearchLessons(ls: seq<Lesson>, rx: RegexTest, compiles: string -> bool, p: ListParams,
                         user: Option<PublicUser>, nowMs: Millis)
    : (Reply, Option<PageOf<Lesson>>)
  {
    if p.search.None? || p.search.value == "" then (Reply(400, SearchTermRequired), None)
    else if !compiles(p.search.value) then (Reply(500, SearchFailed), None)
    else List(ls, ListQuery(p.category, p.isPremium, p.search, Entitled(user, nowMs)), rx, p,
              SearchRetrieved, SearchFailed)
  }

  /** `getLessonsByCategory` for the category in the path. */
  function GetLessonsByCategory(ls: seq<Lesson>, rx: RegexTest, category: string, p: ListParams, user: Option<PublicUser>, nowMs: Millis)
    : (Reply, Option<PageOf<Lesson>>)
  {
    List(ls, LessonQuery(Some(category), PremiumConstraint(p.isPremium, Entitled(user, nowMs)), None), rx, p,
         LessonsRetrieved, CategoryFailed)
  }

  /** The path's category is not sanitized, but the filter's cast trims it: a category sent
      with padding lists exactly what the bare category does. */
  lemma PaddedPathCategory(ls: seq<Lesson>, rx: RegexTest, category: string, p: ListParams, user: Option<PublicUser>, nowMs: Millis)
    ensures GetLessonsByCategory(ls, rx, category, p, user, nowMs) == GetLessonsByCategory(ls, rx, Trim(category), p, user, nowMs)
  {
    PaddedCategoryFindsSame(ls, category, PremiumConstraint(p.isPremium, Entitled(user, nowMs)), None, rx);
  }

  /** A page of `List` is the sorted matches of the query, cut at `(page - 1) * limit`: each item
      is accepted by the query, and the total is the number of lessons it accepts. */
  lemma ListSpec(ls: seq<Lesson>, q: LessonQuery, rx: RegexTest, p: ListParams, ok: string, failed: string)
    ensures
      var (reply, pg) := List(ls, q, rx, p, ok, failed);
      && (reply.status == 200 <==> pg.Some?)
      && (pg.Some? ==>
            && pg.value.total == |Filter(ls, Accepts(q, rx))|
            && (pg.value.limit > 0 ==> |pg.value.items| <= pg.value.limit)
            && forall i :: 0 <= i < |pg.value.items| ==> pg.value.items[i] in ls && Accepts(q, rx)(pg.value.items[i]))
  {
    FindSpec(ls, q, rx);
    var all := Find(ls, q, rx);
    assert |all| == |multiset(all)| == |multiset(Filter(ls, Accepts(q, rx)))| == |Filter(ls, Accepts(q, rx))|;
    PageItemsIn(all, p.page, p.limit);
  }

  /** The premium override: a caller who is not entitled gets no premium lesson from any of the
      three list handlers, whatever `isPremium` asked for. */
  lemma UnentitledSeesOnlyFree(ls: seq<Lesson>, rx: RegexTest, compiles: string -> bool, category: string, p: ListParams, user: Option<PublicUser>, nowMs: Millis)
    requires !Entitled(user, nowMs)
    ensures var pg := GetAllLessons(ls, rx, p, user, nowMs).1;
      pg.Some? ==> forall i :: 0 <= i < |pg.value.items| ==> !pg.value.items[i].isPremium
    ensures var pg := SearchLessons(ls, rx, compiles, p, user, nowMs).1;
      pg.Some? ==> forall i :: 0 <= i < |pg.value.items| ==> !pg.value.items[i].isPremium
    ensures var pg := GetLessonsByCategory(ls, rx, category, p, user, nowMs).1;
      pg.Some? ==> forall i :: 0 <= i < |pg.value.items| ==> !pg.value.items[i].isPremium
  {
    var e := Entitled(user, nowMs);
    ListSpec(ls, ListQuery(p.category, p.isPremium, None, e), rx, p, LessonsRetrieved, LessonsFailed);
    ListSpec(ls, ListQuery(p.category, p.isPremium, p.search, e), rx, p, SearchRetrieved, SearchFailed);
    ListSpec(ls, LessonQuery(Some(category), PremiumConstraint(p.isPremium, e), None), rx, p,
             LessonsRetrieved, CategoryFailed);
  }

  /** For an entitled caller `isPremium` is honoured: 'true' lists only premium lessons, any
      other value only free ones, and without it both kinds are listed. */
  lemma EntitledFilterHonoured(ls: seq<Lesson>, rx: RegexTest, p: ListParams, user: Option<PublicUser>, nowMs: Millis)
    requires Entitled(user, nowMs)
    ensures var pg := GetAllLessons(ls, rx, p, user, nowMs).1;
      pg.Some? && p.isPremium.Some? ==>
        forall i :: 0 <= i < |pg.value.items| ==> pg.value.items[i].isPremium == (p.isPremium.value == "true")
    ensures p.isPremium.None? && (p.category.None? || p.category.value == "") ==>
      GetAllLessons(ls, rx, p, user, nowMs) == List(ls, LessonQuery(None, None, None), rx, p,
                                                    LessonsRetrieved, LessonsFailed)
  {
    ListSpec(ls, ListQuery(p.category, p.isPremium, None, true), rx, p, LessonsRetrieved, LessonsFailed);
  }

  /** A search without a term is answered 400 before any query, whoever asks. */
  lemma SearchNeedsTerm(ls: seq<Lesson>, rx: RegexTest, compiles: string -> bool, p: ListParams, user: Option<PublicUser>, nowMs: Millis)
    requires p.search.None? || p.search == Some("")
    ensures SearchLessons(ls, rx, compiles, p, user, nowMs) == (Reply(400, SearchTermRequired), None)
  {
  }

  /** A search is refused 400 exactly when it has no term, and answered 500 when the term is
      no valid pattern; a page it returns counts the lessons matching the term and the other
      filters, and holds only such lessons. */
  lemma SearchOutcome(ls: seq<Lesson>, rx: RegexTest, compiles: string -> bool, p: ListParams, user: Option<PublicUser>, nowMs: Millis)
    ensures
      var (reply, pg) := SearchLessons(ls, rx, compiles, p, user, nowMs);
      var q := ListQuery(p.category, p.isPremium, p.search, Entitled(user, nowMs));
      && (reply.status == 400 <==> p.search.None? || p.search.value == "")
      && (p.search.Some? && p.search.value != "" && !compiles(p.search.value) ==> reply == Reply(500, SearchFailed) && pg.None?)
      && (reply.status == 200 <==> pg.Some?)
      && (pg.Some? ==>
            && p.search.Some? && compiles(p.search.value) && q.search == p.search
            && pg.value.total == |Filter(ls, Accepts(q, rx))|
            && forall i :: 0 <= i < |pg.value.items| ==> pg.value.items[i] in ls && Accepts(q, rx)(pg.value.items[i]))
  {
    ListSpec(ls, ListQuery(p.category, p.isPremium, p.search, Entitled(user, nowMs)), rx, p, SearchRetrieved, SearchFailed);
  }

  /** With the parameters the route validator admits, a list handler never fails, and its page
      holds at most `limit` lessons, with enough pages counted for all matches. */
  lemma ValidatedListing(ls: seq<Lesson>, rx: RegexTest, p: ListParams, page: nat, limit: nat, user: Option<PublicUser>, nowMs: Millis)
    requires 1 <= page && 1 <= limit <= 100
    requires p.page == Some(NatToString(page)) && p.limit == Some(NatToString(limit))
    ensures
      var (reply, pg) := GetAllLessons(ls, rx, p, user, nowMs);
      && reply == Reply(200, LessonsRetrieved) && pg.Some?
      && |pg.value.items| <= limit
      && FewestPages(pg.value.totalPages, pg.value.total, limit)
  {
    var q := ListQuery(p.category, p.isPremium, None, Entitled(user, nowMs));
    ValidatedList(ls, q, rx, p, LessonsRetrieved, LessonsFailed, page, limit);
    assert GetAllLessons(ls, rx, p, user, nowMs) == List(ls, q, rx, p, LessonsRetrieved, LessonsFailed);
  }

  lemma ValidatedList(ls: seq<Lesson>, q: LessonQuery, rx: RegexTest, p: ListParams, ok: string, failed: string, page: nat, limit: nat)
    requires 1 <= page && 1 <= limit <= 100
    requires p.page == Some(NatToString(page)) && p.limit == Some(NatToString(limit))
    ensures
      var (reply, pg) := List(ls, q, rx, p, ok, failed);
      && reply == Reply(200, ok) && pg.Some?
      && |pg.value.items| <= limit
      && FewestPages(pg.value.totalPages, pg.value.total, limit)
  {
    ValidatedRespond(Find(ls, q, rx), p, ok, failed, page, limit);
  }

  lemma ValidatedRespond(all: seq<Lesson>, p: ListParams, ok: string, failed: string, page: nat, limit: nat)
    requires 1 <= page && 1 <= limit <= 100
    requires p.page == Some(NatToString(page)) && p.limit == Some(NatToString(limit))
    ensures
      var (reply, pg) := Respond(all, p, ok, failed);
      && reply == Reply(200, ok) && pg.Some?
      && |pg.value.items| <= limit
      && FewestPages(pg.value.totalPages, pg.value.total, limit)
  {
    ValidatedPageCount(all, p.page, p.limit, page, limit);
  }

  // ---- getLessonById ----

  /** `getLessonById` for the id in the path. An id that does not cast throws, answered 500. */
  function GetLessonById(ls: seq<Lesson>, idParam: string, user: Option<PublicUser>, nowMs: Millis): (r: (Reply, Option<Lesson>))
    ensures r.1.Some? <==> r.0.status == 200
    ensures r.0.status == 404 <==> ParseNat(idParam).Some? && FirstIndex(ls, LessonById(ParseNat(idParam).value)).None?
    ensures r.0.status == 403 <==>
      && ParseNat(idParam).Some?
      && (match FirstIndex(ls, LessonById(ParseNat(idParam).value))
          case None => false
          case Some(i) => ls[i].isPremium && !Entitled(user, nowMs))
    ensures r.0.status == 403 ==> r.0.message == PremiumRequired
    ensures r.1.Some? ==> ParseNat(idParam).Some? && r.1.value in ls && r.1.value.id == ParseNat(idParam).value
                          && (!r.1.value.isPremium || Entitled(user, nowMs))
  {
    match ParseNat(idParam)
    case None => (Reply(500, LessonFailed), None)
    case Some(id) =>
      match FirstIndex(ls, LessonById(id))
      case None => (Reply(404, LessonNotFound), None)
      case Some(i) =>
        if ls[i].isPremium && !Entitled(user, nowMs) then
          (Reply(403, PremiumRequired), None)
        else (Reply(200, LessonRetrieved), Some(ls[i]))
  }

  /** A free lesson is served to anyone, and a premium one to exactly the entitled callers. */
  lemma LessonGate(ls: seq<Lesson>, k: nat, user: Option<PublicUser>, nowMs: Millis)
    requires UniqueLessons(ls) && k < |ls|
    ensures GetLessonById(ls, NatToString(ls[k].id), user, nowMs).1 == Some(ls[k]) <==> !ls[k].isPremium || Entitled(user, nowMs)
  {
    ParseNatToString(ls[k].id);
    var r := FirstIndex(ls, LessonById(ls[k].id));
    assert LessonById(ls[k].id)(ls[k]);
    assert r.Some? && r.value <= k;
    assert ls[r.value].id == ls[k].id;
  }

  // ---- createLesson, updateLesson, deleteLesson ----

  /** Every stored lesson is well-formed. */
  predicate AllWellFormed(ls: seq<Lesson>) {
    forall i :: 0 <= i < |ls| ==> WellFormed(ls[i])
  }

  /** Overwriting one lesson with a well-formed one keeps them all well-formed and the others as
      they were. */
  lemma WellFormedWrite(ls: seq<Lesson>, i: nat, l: Lesson)
    requires AllWellFormed(ls) && i < |ls| && WellFormed(l)
    ensures AllWellFormed(ls[i := l])
    ensures forall j :: 0 <= j < |ls| && j != i ==> ls[i := l][j] == ls[j]
  {
  }

  /** `createLesson` with the fresh id `id`: the validators of `save()` decide. */
  function LessonCreation(ls: seq<Lesson>, id: LessonId, body: LessonBody, nowMs: Millis): (Reply, seq<Lesson>) {
    var b := Cast(body);
    if LessonErrors(b) != [] then (Reply(500, CreateFailed), ls)
    else (Reply(201, LessonCreated), ls + [NewLesson(id, b, nowMs)])
  }

  /** A created lesson is appended well-formed, and a refused body writes nothing. */
  lemma CreationKeepsWellFormed(ls: seq<Lesson>, id: LessonId, body: LessonBody, nowMs: Millis)
    requires AllWellFormed(ls)
    ensures AllWellFormed(LessonCreation(ls, id, body, nowMs).1)
    ensures LessonCreation(ls, id, body, nowMs).0.status == 201 <==> Conforms(Cast(body))
    ensures LessonCreation(ls, id, body, nowMs).0.status != 201 ==> LessonCreation(ls, id, body, nowMs).1 == ls
  {
    var r := LessonCreation(ls, id, body, nowMs).1;
    if LessonErrors(Cast(body)) == [] {
      CreatedLessonWellFormed(id, body, nowMs);
      assert forall i :: 0 <= i < |ls| ==> r[i] == ls[i];
    }
  }

  method CreateLesson(db: Database, body: LessonBody, nowMs: Millis) returns (reply: Reply)
    requires db.Valid()
    modifies db
    ensures db.Valid()
    ensures (reply, db.lessons) == LessonCreation(old(db.lessons), old(db.nextId), body, nowMs)
    ensures db.users == old(db.users) && db.records == old(db.records) && db.nextId == old(db.nextId) + 1
  {
    var id := db.NewId();
    var b := Cast(body);
    if LessonErrors(b) != [] {
      return Reply(500, CreateFailed);
    }
    var l := NewLesson(id, b, nowMs);
    var ls := db.lessons;
    FreshLessonAppended(ls, l, db.nextId);
    db.lessons := ls + [l];
    reply := Reply(201, LessonCreated);
  }

  /** `updateLesson`: the id is cast and the update validated before the lookup runs. */
  function LessonUpdate(ls: seq<Lesson>, idParam: string, patch: LessonPatch): (Reply, seq<Lesson>) {
    var p := CastPatch(patch);
    match ParseNat(idParam)
    case None => (Reply(500, UpdateFailed), ls)
    case Some(id) =>
      if PatchErrors(p) != [] then (Reply(500, UpdateFailed), ls)
      else match FirstIndex(ls, LessonById(id))
        case None => (Reply(404, LessonNotFound), ls)
        case Some(i) => (Reply(200, LessonUpdated), ls[i := ApplyPatch(ls[i], p)])
  }

  /** An update of an absent id answers 404 and writes nothing; a successful one rewrites that
      lesson alone and keeps every lesson well-formed. */
  lemma UpdateSpec(ls: seq<Lesson>, idParam: string, patch: LessonPatch)
    requires AllWellFormed(ls)
    ensures var (reply, ls') := LessonUpdate(ls, idParam, patch);
      && AllWellFormed(ls') && |ls'| == |ls|
      && (reply.status != 200 ==> ls' == ls)
      && (reply.status == 404 <==>
            && ParseNat(idParam).Some? && PatchErrors(CastPatch(patch)) == []
            && forall i :: 0 <= i < |ls| ==> ls[i].id != ParseNat(idParam).value)
      && (reply.status == 200 ==> forall i :: 0 <= i < |ls| && ls[i].id != ParseNat(idParam).value ==> ls'[i] == ls[i])
  {
    var p := CastPatch(patch);
    if ParseNat(idParam).Some? && PatchErrors(p) == [] {
      var id := ParseNat(idParam).value;
      match FirstIndex(ls, LessonById(id))
      case None =>
      case Some(i) =>
        PatchKeepsWellFormed(ls[i], patch);
        WellFormedWrite(ls, i, ApplyPatch(ls[i], p));
    }
  }

  method UpdateLesson(db: Database, idParam: string, patch: LessonPatch) returns (reply: Reply)
    requires db.Valid()
    modifies db
    ensures db.Valid()
    ensures (reply, db.lessons) == LessonUpdate(old(db.lessons), idParam, patch)
    ensures db.users == old(db.users) && db.records == old(db.records) && db.nextId == old(db.nextId)
  {
    var p := CastPatch(patch);
    var id := ParseNat(idParam);
    if id.None? || PatchErrors(p) != [] {
      return Reply(500, UpdateFailed);
    }
    var found := FirstIndex(db.lessons, LessonById(id.value));
    if found.None? {
      return Reply(404, LessonNotFound);
    }
    var i := found.value;
    db.lessons := db.lessons[i := ApplyPatch(db.lessons[i], p)];
    reply := Reply(200, LessonUpdated);
  }

  /** `deleteLesson`. */
  function LessonDeletion(ls: seq<Lesson>, idParam: string): (Reply, seq<Lesson>) {
    match ParseNat(idParam)
    case None => (Reply(500, DeleteFailed), ls)
    case Some(id) =>
      match FirstIndex(ls, LessonById(id))
      case None => (Reply(404, LessonNotFound), ls)
      case Some(i) => (Reply(200, LessonDeleted), ls[..i] + ls[i + 1..])
  }

  /** Deleting an absent id answers 404 and writes nothing; deleting a stored one removes it,
      and with unique ids no lesson with that id remains while every other lesson stays. */
  lemma DeletionSpec(ls: seq<Lesson>, idParam: string)
    requires UniqueLessons(ls)
    ensures var (reply, ls') := LessonDeletion(ls, idParam);
      && (reply.status != 200 ==> ls' == ls)
      && (reply.status == 404 <==> ParseNat(idParam).Some? && forall i :: 0 <= i < |ls| ==> ls[i].id != ParseNat(idParam).value)
      && (reply.status == 200 ==>
            && |ls'| == |ls| - 1
            && (forall i :: 0 <= i < |ls'| ==> ls'[i].id != ParseNat(idParam).value)
            && forall l :: l in ls && l.id != ParseNat(idParam).value ==> l in ls')
  {
    if ParseNat(idParam).Some? {
      var id := ParseNat(idParam).value;
      match FirstIndex(ls, LessonById(id))
      case None =>
      case Some(i) =>
        var ls' := ls[..i] + ls[i + 1..];
        forall j | 0 <= j < |ls'| ensures ls'[j].id != id {
          if j < i { assert ls'[j] == ls[j]; } else { assert ls'[j] == ls[j + 1]; }
        }
        forall l | l in ls && l.id != id ensures l in ls' {
          var k :| 0 <= k < |ls| && ls[k] == l;
          if k < i { assert ls'[k] == l; } else { assert k != i; assert ls'[k - 1] == l; }
        }
    }
  }

  method DeleteLesson(db: Database, idParam: string) returns (reply: Reply)
    requires db.Valid()
    modifies db
    ensures db.Valid()
    ensures (reply, db.lessons) == LessonDeletion(old(db.lessons), idParam)
    ensures db.users == old(db.users) && db.records == old(db.records) && db.nextId == old(db.nextId)
  {
    var id := ParseNat(idParam);
    if id.None? {
      return Reply(500, DeleteFailed);
    }
    var found := FirstIndex(db.lessons, LessonById(id.value));
    if found.None? {
      return Reply(404, LessonNotFound);
    }
    var i := found.value;
    ghost var ls := db.lessons;
    db.lessons := db.lessons[..i] + db.lessons[i + 1..];
    assert forall j :: 0 <= j < |db.lessons| ==> db.lessons[j] == if j < i then ls[j] else ls[j + 1];
    reply := Reply(200, LessonDeleted);
  }
}
