/** backend/src/routes/lessons.ts: the lesson body and query validators and the route table:
    the catalogue reads behind `optionalAuth`, the premium read behind `authenticate` and
    `requireSubscription`, and the writes behind `authenticate` and `requireRole(['admin'])`. */
module LessonRoutes {
  import opened Wrappers
  import opened Text
  import opened Types
  import opened Seqs
  import opened Validators
  import opened Pipeline
  import Paging
  import Jwt
  import UserModel
  import AuthMiddleware
  import LessonModel
  import LessonController

  datatype LessonRules = CreateRules | UpdateRules | QueryRules

  datatype LessonHandler =
    | AllLessonsHandler | SearchHandler | CategoryHandler | LessonByIdHandler
    | CreateHandler | UpdateHandler | DeleteHandler

  // The validators' messages.
  const TitleLength := "Title must be between 1 and 200 characters"
  const DescriptionLength := "Description must be between 1 and 1000 characters"
  const ContentEmpty := "Content cannot be empty"
  const ContentRequired := "Content is required"
  const DurationRange := "Duration must be between 1 and 480 minutes"
  const CategoryLength := "Category must be between 1 and 100 characters"
  const TagLength := "Each tag must be between 1 and 50 characters"
  const TagsNotArray := "Tags must be an array"
  const PremiumNotBoolean := "isPremium must be a boolean"
  const AuthorLength := "Author must be between 1 and 100 characters"
  const OrderNotNatural := "Order must be a non-negative integer"
  const InvalidVideoUrl := "Video URL must be a valid URL"
  const InvalidThumbnailUrl := "Thumbnail URL must be a valid URL"
  const PageNotPositive := "Page must be a positive integer"
  const LimitRange := "Limit must be between 1 and 100"
  const CategoryEmpty := "Category cannot be empty"
  const SearchEmpty := "Search term cannot be empty"

  /** A chain over field `k`: skipped when it is `optional()` and the field is absent. */
  function OnField(b: Body, k: string, optional: bool, errors: string -> seq<string>): seq<string> {
    if optional && k !in b then [] else errors(Field(b, k))
  }

  /** `trim().isLength({ min, max })`. */
  function TrimmedLength(s: string, min: nat, max: nat, message: string): (r: seq<string>)
    ensures r == [] <==> min <= |Trim(s)| <= max
  {
    if LengthIn(Trim(s), min, max) then [] else [message]
  }

  /** `body('tags.*').trim().isLength({ min: 1, max: 50 })`: one message per element of a tags
      array that fails; a wildcard addresses nothing when `tags` is no array. */
  function TagElementErrors(tags: seq<Scalar>): (r: seq<string>)
    ensures r == [] <==> forall i :: 0 <= i < |tags| ==> 1 <= |Trim(ScalarText(tags[i]))| <= 50
  {
    if tags == [] then []
    else TrimmedLength(ScalarText(tags[0]), 1, 50, TagLength) + TagElementErrors(tags[1..])
  }

  function TagErrors(b: Body, optional: bool): (r: seq<string>)
    ensures r == [] <==>
      (optional && "tags" !in b) || ("tags" in b && b["tags"].List? && forall i :: 0 <= i < |b["tags"].items| ==> 1 <= |Trim(ScalarText(b["tags"].items[i]))| <= 50)
  {
    if optional && "tags" !in b then []
    else if "tags" in b && b["tags"].List? then TagElementErrors(b["tags"].items)
    else [TagsNotArray]
  }

  /** `lessonValidation` (every chain required but `order` and the URLs) when `optional` is
      false, `updateLessonValidation` (every chain optional) when it is true. `isUrl` is
      validator.js's URL check. */
  function BodyErrors(b: Body, optional: bool, isUrl: string -> bool): seq<string> {
    OnField(b, "title", optional, s => TrimmedLength(s, 1, 200, TitleLength))
    + OnField(b, "description", optional, s => TrimmedLength(s, 1, 1000, DescriptionLength))
    + OnField(b, "content", optional, s => if Trim(s) == "" then [if optional then ContentEmpty else ContentRequired] else [])
    + OnField(b, "duration", optional, s => if IntIn(s, Some(1), Some(480)) then [] else [DurationRange])
    + OnField(b, "category", optional, s => TrimmedLength(s, 1, 100, CategoryLength))
    + TagErrors(b, optional)
    + OnField(b, "isPremium", optional, s => if IsBoolean(s) then [] else [PremiumNotBoolean])
    + OnField(b, "author", optional, s => TrimmedLength(s, 1, 100, AuthorLength))
    + OnField(b, "order", true, s => if IntIn(s, Some(0), None) then [] else [OrderNotNatural])
    + OnField(b, "videoUrl", true, s => if isUrl(s) then [] else [InvalidVideoUrl])
    + OnField(b, "thumbnailUrl", true, s => if isUrl(s) then [] else [InvalidThumbnailUrl])
  }

  /** The body the rules accept: each present (or required) field within its bounds. */
  predicate BodyAccepted(b: Body, optional: bool, isUrl: string -> bool) {
    && (!optional || "title" in b ==> 1 <= |Trim(Field(b, "title"))| <= 200)
    && (!optional || "description" in b ==> 1 <= |Trim(Field(b, "description"))| <= 1000)
    && (!optional || "content" in b ==> Trim(Field(b, "content")) != "")
    && (!optional || "duration" in b ==> IntIn(Field(b, "duration"), Some(1), Some(480)))
    && (!optional || "category" in b ==> 1 <= |Trim(Field(b, "category"))| <= 100)
    && (!optional || "tags" in b ==>
          && "tags" in b && b["tags"].List?
          && forall i :: 0 <= i < |b["tags"].items| ==> 1 <= |Trim(ScalarText(b["tags"].items[i]))| <= 50)
    && (!optional || "isPremium" in b ==> IsBoolean(Field(b, "isPremium")))
    && (!optional || "author" in b ==> 1 <= |Trim(Field(b, "author"))| <= 100)
    && ("order" in b ==> IntIn(Field(b, "order"), Some(0), None))
    && ("videoUrl" in b ==> isUrl(Field(b, "videoUrl")))
    && ("thumbnailUrl" in b ==> isUrl(Field(b, "thumbnailUrl")))
  }

  /** The create and update rules report nothing exactly for the bodies they describe. */
  lemma BodyRules(b: Body, optional: bool, isUrl: string -> bool)
    ensures BodyErrors(b, optional, isUrl) == [] <==> BodyAccepted(b, optional, isUrl)
  {
    var parts := [
      OnField(b, "title", optional, s => TrimmedLength(s, 1, 200, TitleLength)),
      OnField(b, "description", optional, s => TrimmedLength(s, 1, 1000, DescriptionLength)),
      OnField(b, "content", optional, s => if Trim(s) == "" then [if optional then ContentEmpty else ContentRequired] else []),
      OnField(b, "duration", optional, s => if IntIn(s, Some(1), Some(480)) then [] else [DurationRange]),
      OnField(b, "category", optional, s => TrimmedLength(s, 1, 100, CategoryLength)),
      TagErrors(b, optional),
      OnField(b, "isPremium", optional, s => if IsBoolean(s) then [] else [PremiumNotBoolean]),
      OnField(b, "author", optional, s => TrimmedLength(s, 1, 100, AuthorLength)),
      OnField(b, "order", true, s => if IntIn(s, Some(0), None) then [] else [OrderNotNatural]),
      OnField(b, "videoUrl", true, s => if isUrl(s) then [] else [InvalidVideoUrl]),
      OnField(b, "thumbnailUrl", true, s => if isUrl(s) then [] else [InvalidThumbnailUrl])];
    assert |BodyErrors(b, optional, isUrl)| == |parts[0]| + |parts[1]| + |parts[2]| + |parts[3]| + |parts[4]| + |parts[5]|
      + |parts[6]| + |parts[7]| + |parts[8]| + |parts[9]| + |parts[10]|;
  }

  /** `queryValidation`: every chain optional. */
  function QueryErrors(q: Query): seq<string> {
    (if "page" in q && !IntIn(q["page"], Some(1), None) then [PageNotPositive] else [])
    + (if "limit" in q && !IntIn(q["limit"], Some(1), Some(100)) then [LimitRange] else [])
    + (if "category" in q && Trim(q["category"]) == "" then [CategoryEmpty] else [])
    + (if "search" in q && Trim(q["search"]) == "" then [SearchEmpty] else [])
    + (if "isPremium" in q && !IsBoolean(q["isPremium"]) then [PremiumNotBoolean] else [])
  }

  /** The parameters a list handler reads from `req.query` once the chains have run: the
      `trim()` sanitizers of `category` and `search` write the trimmed values back. */
  function ParamsOf(q: Query): LessonController.ListParams {
    LessonController.ListParams(Param(q, "page"), Param(q, "limit"),
                                if "category" in q then Some(Trim(q["category"])) else None,
                                Param(q, "isPremium"),
                                if "search" in q then Some(Trim(q["search"])) else None)
  }

  /** A query the rules let through reaches the handlers trimmed: a search term it carries is
      never refused as missing, and a category it carries is the trimmed one the listing
      filters on. */
  lemma SanitizedListQuery(q: Query, ls: seq<Lesson>, rx: LessonModel.RegexTest, compiles: string -> bool, user: Option<PublicUser>, nowMs: Millis, entitled: bool)
    requires QueryErrors(q) == []
    ensures "search" in q ==> LessonController.SearchLessons(ls, rx, compiles, ParamsOf(q), user, nowMs).0.status != 400
    ensures "category" in q ==>
      LessonController.ListQuery(ParamsOf(q).category, ParamsOf(q).isPremium, None, entitled).category == Some(Trim(q["category"]))
  {
    assert |QueryErrors(q)| == 0;
  }

  /** A query the rules let through never makes the listing's skip negative: its page is at
      least 1, its limit between 1 and 100, and the items are the window the page names. */
  lemma ValidatedQueryPaging<T>(all: seq<T>, q: Query)
    requires QueryErrors(q) == []
    ensures var r := Paging.Paginate(all, Param(q, "page"), Param(q, "limit"));
      && r.Some? && r.value.page >= 1 && 1 <= r.value.limit <= 100
      && r.value.items == Window(all, Paging.Skip(r.value.page, r.value.limit), r.value.limit)
  {
    QueryBounds(q);
    Paging.PageOfPositive(all, Param(q, "page"), Param(q, "limit"));
  }

  /** The page and limit a validated query yields. */
  lemma QueryBounds(q: Query)
    requires QueryErrors(q) == []
    ensures Paging.IntOr(Param(q, "page"), 1) >= 1
    ensures 1 <= Paging.IntOr(Param(q, "limit"), 10) <= 100
  {
    assert |QueryErrors(q)| == 0;
    if "page" in q {
      assert IntIn(q["page"], Some(1), None);
      ParseIntOfLiteral(q["page"]);
    }
    if "limit" in q {
      assert IntIn(q["limit"], Some(1), Some(100));
      ParseIntOfLiteral(q["limit"]);
    }
  }

  function Errors(rules: LessonRules, b: Body, q: Query, isUrl: string -> bool): seq<string> {
    if rules.QueryRules? then QueryErrors(q) else BodyErrors(b, rules.UpdateRules?, isUrl)
  }

  function Check(b: Body, q: Query, isUrl: string -> bool): LessonRules -> seq<string> {
    (rules: LessonRules) => Errors(rules, b, q, isUrl)
  }

  const AdminOnly: seq<Guard<LessonRules>> := [Authenticate, RequireRole(["admin"])]

  /** The route table, in declaration order. */
  function Routes(): seq<Route<LessonRules, LessonHandler>> {
    [ Route(Get, "/", [Validate(QueryRules), OptionalAuth], AllLessonsHandler),
      Route(Get, "/search", [Validate(QueryRules), OptionalAuth], SearchHandler),
      Route(Get, "/category/:category", [Validate(QueryRules), OptionalAuth], CategoryHandler),
      Route(Get, "/:id", [OptionalAuth], LessonByIdHandler),
      Route(Get, "/premium/:id", [Authenticate, RequireSubscription], LessonByIdHandler),
      Route(Post, "/", AdminOnly + [Validate(CreateRules)], CreateHandler),
      Route(Put, "/:id", AdminOnly + [Validate(UpdateRules)], UpdateHandler),
      Route(Delete, "/:id", AdminOnly, DeleteHandler) ]
  }

  /** Every write reaches its handler only for a stored administrator presenting a valid access
      token, and only with a body its rules accept. */
  lemma WritesNeedAdmin(k: nat, env: Env, b: Body, q: Query, isUrl: string -> bool, rejection: seq<string> -> Reply)
    requires k < |Routes()| && Routes()[k].verb != Get
    ensures var r := Run(Routes()[k].chain, None, env, Check(b, q, isUrl), rejection);
      && (r.Reached? ==>
            && r.user.Some? && r.user.value.role == AdminRole
            && exists i :: 0 <= i < |env.users| && r.user.value == UserModel.ToJson(env.users[i]))
      && (r.Reached? && Routes()[k].verb == Post ==> BodyErrors(b, false, isUrl) == [])
      && (r.Reached? && Routes()[k].verb == Put ==> BodyErrors(b, true, isUrl) == [])
  {
    var routes := Routes();
    assert 5 <= k <= 7;
    if k == 5 {
      assert routes[k].chain == AdminOnly + [Validate(CreateRules)] && routes[k].verb == Post;
      CreateNeedsAdmin(env, b, q, isUrl, rejection);
    } else if k == 6 {
      assert routes[k].chain == AdminOnly + [Validate(UpdateRules)] && routes[k].verb == Put;
      UpdateNeedsAdmin(env, b, q, isUrl, rejection);
    } else {
      assert routes[k].chain == AdminOnly + [] && routes[k].verb == Delete;
      AdminChain([], env, Check(b, q, isUrl), rejection);
    }
  }

  lemma CreateNeedsAdmin(env: Env, b: Body, q: Query, isUrl: string -> bool, rejection: seq<string> -> Reply)
    ensures var r := Run(AdminOnly + [Validate(CreateRules)], None, env, Check(b, q, isUrl), rejection);
      && (r.Reached? ==>
            && r.user.Some? && r.user.value.role == AdminRole
            && exists i :: 0 <= i < |env.users| && r.user.value == UserModel.ToJson(env.users[i]))
      && (r.Reached? ==> BodyErrors(b, false, isUrl) == [])
  {
    ValidatedWrite(CreateRules, env, Check(b, q, isUrl), rejection);
    assert Check(b, q, isUrl)(CreateRules) == BodyErrors(b, false, isUrl);
  }


  lemma UpdateNeedsAdmin(env: Env, b: Body, q: Query, isUrl: string -> bool, rejection: seq<string> -> Reply)
    ensures var r := Run(AdminOnly + [Validate(UpdateRules)], None, env, Check(b, q, isUrl), rejection);
      && (r.Reached? ==>
            && r.user.Some? && r.user.value.role == AdminRole
            && exists i :: 0 <= i < |env.users| && r.user.value == UserModel.ToJson(env.users[i]))
      && (r.Reached? ==> BodyErrors(b, true, isUrl) == [])
  {
    ValidatedWrite(UpdateRules, env, Check(b, q, isUrl), rejection);
    assert Check(b, q, isUrl)(UpdateRules) == BodyErrors(b, true, isUrl);
  }


  /** An administrator chain ending in one rule set reaches its handler only when those rules
      report nothing. */
  lemma ValidatedWrite(rules: LessonRules, env: Env, check: LessonRules -> seq<string>, rejection: seq<string> -> Reply)
    ensures var r := Run(AdminOnly + [Validate(rules)], None, env, check, rejection);
      && (r.Reached? ==>
            && r.user.Some? && r.user.value.role == AdminRole
            && exists i :: 0 <= i < |env.users| && r.user.value == UserModel.ToJson(env.users[i]))
      && (r.Reached? ==> check(rules) == [])
  {
    var chain := [Validate(rules)];
    AdminChain(chain, env, check, rejection);
    assert chain[0].rules == rules;
  }

  /** `authenticate, requireRole(['admin'])` and then validation. */
  lemma AdminChain(rules: seq<Guard<LessonRules>>, env: Env, check: LessonRules -> seq<string>, rejection: seq<string> -> Reply)
    requires OnlyValidation(rules)
    ensures var r := Run(AdminOnly + rules, None, env, check, rejection);
      && (r.Reached? ==>
            && r.user.Some? && r.user.value.role == AdminRole
            && exists i :: 0 <= i < |env.users| && r.user.value == UserModel.ToJson(env.users[i]))
      && (r.Reached? ==> forall i :: 0 <= i < |rules| ==> check(rules[i].rules) == [])
  {
    assert AdminOnly + rules == [Authenticate, RequireRole(["admin"])] + rules;
    AuthenticatedRole(["admin"], rules, env, check, rejection);
    if Authentication(env).Admit? {
      AdminName(Authentication(env).user.role);
    }
  }

  function Authentication(env: Env): AuthMiddleware.Verdict {
    AuthMiddleware.Authentication(env.users, env.cfg, env.header, env.nowMs)
  }

  lemma AdminName(role: Role)
    ensures Jwt.RoleName(role) in ["admin"] <==> role == AdminRole
  {
  }

  /** `/premium/:id` reaches `getLessonById` only for a stored user whose subscription snapshot
      is active now, and for every such user presenting a valid access token. */
  lemma PremiumRouteNeedsSubscription(env: Env, b: Body, q: Query, isUrl: string -> bool, rejection: seq<string> -> Reply)
    ensures var r := Run(Routes()[4].chain, None, env, Check(b, q, isUrl), rejection);
      && (r.Reached? <==> Authentication(env).Admit? && UserModel.HasActiveSubscription(Authentication(env).user.subscription, env.nowMs))
      && (r.Reached? ==> r.user.Some? && UserModel.HasActiveSubscription(r.user.value.subscription, env.nowMs))
  {
    AuthenticatedSubscriber(env, Check(b, q, isUrl), rejection);
  }

  /** The public reads never refuse for want of credentials: the listings stop only on a query
      the rules reject, `/:id` never stops, and each hands its handler the user the token
      names, if any. */
  lemma PublicReadsOptionallyAuthenticated(k: nat, env: Env, b: Body, q: Query, isUrl: string -> bool, rejection: seq<string> -> Reply)
    requires k < 4
    ensures var r := Run(Routes()[k].chain, None, env, Check(b, q, isUrl), rejection);
      && (r.Reached? <==> k == 3 || QueryErrors(q) == [])
      && (r.Reached? ==> r.user == AuthMiddleware.OptionalUser(env.users, env.cfg, env.header, env.nowMs))
      && (r.Stopped? ==> r.reply == rejection(QueryErrors(q)))
  {
    var check := Check(b, q, isUrl);
    var rules: seq<Guard<LessonRules>> := if k == 3 then [] else [Validate(QueryRules)];
    assert Routes()[k].chain == rules + [OptionalAuth];
    OptionallyAuthenticated(rules, env, check, rejection);
  }
}
