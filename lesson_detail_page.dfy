/** frontend/src/pages/LessonDetailPage.tsx: which of its four views the page renders for the
    state of its `['lesson', id]` query and the signed-in user, and how that choice composes with
    the backend's `getLessonById`, which the page calls through the public `/lessons/:id` route. */
module LessonDetailPage {
  import opened Wrappers
  import opened Types
  import UserModel
  import Text
  import Store
  import LessonController

  /** The page's views: the spinner, "Failed to load lesson", the premium upsell, the lesson. */
  datatype Screen = Loading | Failure | Upsell | Full(lesson: Lesson)

  /** `user && user.subscription?.status === 'active'`: the client reads the status only. */
  predicate CanAccessPremium(user: Option<PublicUser>) {
    user.Some? && user.value.subscription.Some? && user.value.subscription.value.status == Active
  }

  /** The view for the query's `isLoading`, `error` and `data?.data`, in the page's order of
      checks: loading, then a failure or a missing lesson, then the premium gate. */
  function ScreenOf(isLoading: bool, failed: bool, lesson: Option<Lesson>, user: Option<PublicUser>): (s: Screen)
    ensures s.Loading? <==> isLoading
    ensures s.Failure? <==> !isLoading && (failed || lesson.None?)
    ensures s.Upsell? <==> !isLoading && !failed && lesson.Some? && lesson.value.isPremium && !CanAccessPremium(user)
    ensures s.Full? <==> !isLoading && !failed && lesson.Some? && (!lesson.value.isPremium || CanAccessPremium(user))
    ensures s.Full? ==> s.lesson == lesson.value
  {
    if isLoading then Loading
    else if failed || lesson.None? then Failure
    else if lesson.value.isPremium && !CanAccessPremium(user) then Upsell
    else Full(lesson.value)
  }

  /** The view once the query settled on the backend's answer: `error` is set for every status
      but 200, and `data.data` is the lesson of a 200. Two users take part: `server` is the one
      `optionalAuth` loads from the collection for the request's token, and `client` is the copy
      the auth context keeps, which the page's premium gate reads. */
  function SettledScreen(ls: seq<Lesson>, id: string, client: Option<PublicUser>, server: Option<PublicUser>, nowMs: Millis): (s: Screen)
    ensures s != Loading
  {
    var r := LessonController.GetLessonById(ls, id, server, nowMs);
    ScreenOf(false, r.0.status != 200, r.1, client)
  }

  /** The client's copy agrees with the backend as far as the premium gate goes: a caller the
      backend admits passes the client's gate too. Holds whenever the copy is the stored user. */
  predicate GatesAgree(client: Option<PublicUser>, server: Option<PublicUser>, nowMs: Millis) {
    LessonController.Entitled(server, nowMs) ==> CanAccessPremium(client)
  }

  /** A subscription the backend admits is one the client admits. */
  lemma ServerEntitlementAdmitsClient(user: Option<PublicUser>, nowMs: Millis)
    requires LessonController.Entitled(user, nowMs)
    ensures CanAccessPremium(user)
  {
  }

  /** The converse fails: an active status whose period has ended admits the client but not
      the backend, which answers 403. */
  lemma LapsedSubscriptionSplitsGates(u: PublicUser, end: Millis, nowMs: Millis)
    requires u.subscription == Some(Snapshot(Active, None, None, Some(end))) && end <= nowMs
    ensures CanAccessPremium(Some(u))
    ensures !LessonController.Entitled(Some(u), nowMs)
  {
  }

  /** The upsell is shown exactly when the backend sent a premium lesson, so the stored user is
      entitled, while the client's copy does not pass the page's gate. */
  lemma UpsellExactly(ls: seq<Lesson>, id: string, client: Option<PublicUser>, server: Option<PublicUser>, nowMs: Millis)
    ensures var r := LessonController.GetLessonById(ls, id, server, nowMs);
      SettledScreen(ls, id, client, server, nowMs) == Upsell <==>
        && r.1.Some? && r.1.value.isPremium
        && LessonController.Entitled(server, nowMs) && !CanAccessPremium(client)
  {
  }

  /** While the client's copy agrees with the backend, the upsell is never shown: a premium
      lesson reaches the page only for an entitled caller, whom the client admits too, and a
      refused caller gets a 403, which the page shows as a failure to load. */
  lemma UpsellUnreachable(ls: seq<Lesson>, id: string, client: Option<PublicUser>, server: Option<PublicUser>, nowMs: Millis)
    requires GatesAgree(client, server, nowMs)
    ensures SettledScreen(ls, id, client, server, nowMs) != Upsell
  {
    UpsellExactly(ls, id, client, server, nowMs);
  }

  /** The copy the subscription page keeps after a cancellation succeeds: the same user with
      its snapshot's status set to 'cancelled'. */
  function OptimisticCancel(u: PublicUser): (c: PublicUser)
    ensures !CanAccessPremium(Some(c))
    ensures c == u.(subscription := c.subscription)
  {
    var s := if u.subscription.Some? then u.subscription.value else Snapshot(Cancelled, None, None, None);
    u.(subscription := Some(s.(status := Cancelled)))
  }

  /** The optimistic copy lags the backend: the cancellation only asks the provider to stop at
      the period's end, so the stored user stays entitled, and a premium lesson the backend
      sends is met with the upsell. */
  lemma CancelledCopyShowsUpsell(ls: seq<Lesson>, k: nat, u: PublicUser, nowMs: Millis)
    requires Store.UniqueLessons(ls) && k < |ls| && ls[k].isPremium
    requires LessonController.Entitled(Some(u), nowMs)
    ensures SettledScreen(ls, Text.NatToString(ls[k].id), Some(OptimisticCancel(u)), Some(u), nowMs) == Upsell
    ensures !GatesAgree(Some(OptimisticCancel(u)), Some(u), nowMs)
  {
    LessonController.LessonGate(ls, k, Some(u), nowMs);
  }

  /** While the client's copy agrees with the backend, a stored lesson is shown in full exactly
      when the backend's gate lets it through, and otherwise the page reports a failure to load. */
  lemma StoredLessonScreen(ls: seq<Lesson>, k: nat, client: Option<PublicUser>, server: Option<PublicUser>, nowMs: Millis)
    requires Store.UniqueLessons(ls) && k < |ls| && GatesAgree(client, server, nowMs)
    ensures var s := SettledScreen(ls, Text.NatToString(ls[k].id), client, server, nowMs);
      && (s == Full(ls[k]) <==> !ls[k].isPremium || LessonController.Entitled(server, nowMs))
      && (s != Full(ls[k]) ==> s == Failure)
  {
    var id := Text.NatToString(ls[k].id);
    LessonController.LessonGate(ls, k, server, nowMs);
    UpsellUnreachable(ls, id, client, server, nowMs);
    var r := LessonController.GetLessonById(ls, id, server, nowMs);
    if r.1.Some? {
      Text.ParseNatToString(ls[k].id);
      var j :| 0 <= j < |ls| && ls[j] == r.1.value;
      assert j == k;
    }
  }
}
