/** The state of frontend/src/pages/LessonsPage.tsx: the page filters, the search box, the
    selected category and the premium filter, the handlers that update them, the choice of
    endpoint, the pager's clamps, and the query key under which the fetched page is cached. */
module LessonsPage {
  import opened Wrappers
  import opened Text
  import LessonModel

  const PageSize := 12

  /** `filters`: the page asked for and the page size. */
  datatype Filters = Filters(page: int, limit: int)

  /** A snapshot of the page's state variables. */
  datatype PageState = PageState(filters: Filters, searchTerm: string, selectedCategory: string, showPremiumOnly: Option<bool>)

  /** The request `queryFn` sends: the search endpoint for a non-empty term, the list endpoint
      otherwise; an empty category is sent as no category. */
  datatype Fetch =
    | FetchAll(page: int, limit: int, category: Option<string>, isPremium: Option<bool>)
    | FetchSearch(term: string, category: Option<string>, isPremium: Option<bool>, page: int, limit: int)

  function CategoryParam(selected: string): Option<string> {
    if selected == "" then None else Some(selected)
  }

  function FetchOf(s: PageState): (f: Fetch)
    ensures f.FetchSearch? <==> s.searchTerm != ""
    ensures f.FetchSearch? ==> f.term == s.searchTerm
    ensures f.page == s.filters.page && f.limit == s.filters.limit && f.isPremium == s.showPremiumOnly
    ensures f.category.Some? <==> s.selectedCategory != ""
  {
    if s.searchTerm != "" then
      FetchSearch(s.searchTerm, CategoryParam(s.selectedCategory), s.showPremiumOnly, s.filters.page, s.filters.limit)
    else FetchAll(s.filters.page, s.filters.limit, CategoryParam(s.selectedCategory), s.showPremiumOnly)
  }

  // ---- the handlers, as transitions of the state ----

  /** The premium filter's three states, in the order a click moves through them. */
  function NextPremiumFilter(o: Option<bool>): Option<bool> {
    match o
    case None => Some(true)
    case Some(true) => Some(false)
    case Some(false) => None
  }

  /** Three clicks bring the premium filter back, and no fewer do. */
  lemma PremiumFilterCycle(o: Option<bool>)
    ensures NextPremiumFilter(NextPremiumFilter(NextPremiumFilter(o))) == o
    ensures NextPremiumFilter(o) != o && NextPremiumFilter(NextPremiumFilter(o)) != o
  {
  }

  /** A category click: the selected one is cleared, any other is selected. */
  function ToggledCategory(selected: string, clicked: string): (r: string)
    ensures clicked == selected ==> r == ""
    ensures clicked != selected ==> r == clicked
  {
    if clicked == selected then "" else clicked
  }

  /** Clicking the same category twice, starting from none, leaves none selected. */
  lemma CategoryClickedTwice(clicked: string)
    ensures ToggledCategory(ToggledCategory("", clicked), clicked) == ""
  {
  }

  function FirstPage(s: PageState): PageState {
    s.(filters := s.filters.(page := 1))
  }

  function Searched(s: PageState): PageState { FirstPage(s) }

  function CategoryChanged(s: PageState, clicked: string): PageState {
    FirstPage(s.(selectedCategory := ToggledCategory(s.selectedCategory, clicked)))
  }

  function PremiumToggled(s: PageState): PageState {
    FirstPage(s.(showPremiumOnly := NextPremiumFilter(s.showPremiumOnly)))
  }

  function Cleared(s: PageState): PageState {
    FirstPage(s.(searchTerm := "", selectedCategory := "", showPremiumOnly := None))
  }

  /** Submitting a search, changing the category, toggling the premium filter and clearing all
      return to page 1; clearing leaves the list endpoint with no constraint. */
  lemma HandlersResetPage(s: PageState, clicked: string)
    ensures Searched(s).filters.page == 1 && CategoryChanged(s, clicked).filters.page == 1
    ensures PremiumToggled(s).filters.page == 1 && Cleared(s).filters.page == 1
    ensures FetchOf(Cleared(s)) == FetchAll(1, s.filters.limit, None, None)
  {
  }

  // ---- the pager ----

  /** `filters.page || 1`. */
  function CurrentPage(page: int): int {
    if page == 0 then 1 else page
  }

  /** `data?.data?.totalPages || 0`; the pager is shown when it exceeds 1. */
  function TotalPages(reported: Option<int>): int {
    match reported case Some(t) => t case None => 0
  }

  /** Previous: `Math.max(1, currentPage - 1)`, disabled on page 1. */
  function PreviousPage(current: int): int {
    if current - 1 > 1 then current - 1 else 1
  }

  /** Next: `Math.min(totalPages, currentPage + 1)`, disabled on the last page. */
  function NextPage(current: int, total: int): int {
    if current + 1 < total then current + 1 else total
  }

  /** From any page in [1, totalPages], Previous and Next stay in that range, and each moves by
      exactly one page when it is enabled. */
  lemma PagerStaysInRange(current: int, total: int)
    requires 1 <= current <= total
    ensures 1 <= PreviousPage(current) <= total && 1 <= NextPage(current, total) <= total
    ensures current != 1 ==> PreviousPage(current) == current - 1
    ensures current != total ==> NextPage(current, total) == current + 1
  {
  }

  // ---- the query key ----

  /** The key as written, ['lessons', filters, searchTerm]: the category and the premium
      filter, which `queryFn` also reads, are missing from it. */
  function QueryKeyAsWritten(s: PageState): (Filters, string) {
    (s.filters, s.searchTerm)
  }

  /** On page 1, choosing a category leaves the key as written unchanged while the request
      changes, so the page keeps showing the cached lessons of the previous category; the
      premium filter behaves the same. */
  lemma StaleKeyAsWritten(s: PageState, clicked: string)
    requires s.filters.page == 1 && clicked != "" && clicked != s.selectedCategory
    ensures QueryKeyAsWritten(CategoryChanged(s, clicked)) == QueryKeyAsWritten(s)
    ensures FetchOf(CategoryChanged(s, clicked)) != FetchOf(s)
    ensures QueryKeyAsWritten(PremiumToggled(s)) == QueryKeyAsWritten(s)
    ensures FetchOf(PremiumToggled(s)) != FetchOf(s)
  {
    PremiumFilterCycle(s.showPremiumOnly);
  }

  /** The key with every state variable `queryFn` reads. */
  function QueryKey(s: PageState): (Filters, string, string, Option<bool>) {
    (s.filters, s.searchTerm, s.selectedCategory, s.showPremiumOnly)
  }

  /** States with equal keys send equal requests, so a cached page is always the answer to the
      request the state describes. */
  lemma QueryKeyDeterminesFetch(s: PageState, t: PageState)
    requires QueryKey(s) == QueryKey(t)
    ensures FetchOf(s) == FetchOf(t)
  {
  }

  /** Conversely, states that send equal requests have equal keys: the corrected key caches no
      request under two keys. */
  lemma FetchDeterminesQueryKey(s: PageState, t: PageState)
    requires FetchOf(s) == FetchOf(t)
    ensures QueryKey(s) == QueryKey(t)
  {
    CategoryParamInjective(s.selectedCategory, t.selectedCategory);
  }

  lemma CategoryParamInjective(a: string, b: string)
    ensures CategoryParam(a) == CategoryParam(b) ==> a == b
  {
  }

  // ---- formatDuration ----

  /** `formatDuration(minutes)`: `Math.floor(minutes / 60)` on the floating-point quotient, and
      JavaScript's remainder. */
  function FormatDuration(minutes: int): string {
    var hours := ((minutes as real) / 60.0).Floor;
    var mins := LessonModel.JsRem(minutes, 60);
    if hours > 0 then IntToString(hours) + "h " + IntToString(mins) + "m" else IntToString(mins) + "m"
  }

  /** The floor of the real quotient is the integer quotient. */
  lemma FloorOfQuotient(m: int)
    ensures ((m as real) / 60.0).Floor == m / 60
  {
    var q := m / 60;
    assert q * 60 <= m < q * 60 + 60;
    assert (q as real) * 60.0 <= m as real < (q as real) * 60.0 + 60.0;
    assert (q as real) <= (m as real) / 60.0 < (q as real) + 1.0;
  }

  /** The page renders a duration as the lesson model's `formattedDuration` does. */
  lemma FormatDurationAgrees(minutes: int)
    ensures FormatDuration(minutes) == LessonModel.FormattedDuration(minutes)
  {
    FloorOfQuotient(minutes);
  }

  /** The page's state variables and its handlers. */
  class Page {
    var filters: Filters
    var searchTerm: string
    var selectedCategory: string
    var showPremiumOnly: Option<bool>

    function State(): PageState
      reads this
    {
      PageState(filters, searchTerm, selectedCategory, showPremiumOnly)
    }

    /** The page the pager offers is a real page, and the size never changes. */
    predicate Valid()
      reads this
    {
      filters.page >= 1 && filters.limit == PageSize
    }

    constructor()
      ensures Valid()
      ensures State() == PageState(Filters(1, PageSize), "", "", None)
    {
      filters := Filters(1, PageSize);
      searchTerm := "";
      selectedCategory := "";
      showPremiumOnly := None;
    }

    /** The search box's `onChange`: the term changes, nothing else. */
    method SetSearchTerm(term: string)
      requires Valid()
      modifies this
      ensures Valid() && State() == old(State()).(searchTerm := term)
    {
      searchTerm := term;
    }

    method HandleSearch()
      requires Valid()
      modifies this
      ensures Valid() && State() == Searched(old(State()))
    {
      filters := filters.(page := 1);
    }

    method HandleCategoryChange(category: string)
      requires Valid()
      modifies this
      ensures Valid() && State() == CategoryChanged(old(State()), category)
    {
      selectedCategory := if category == selectedCategory then "" else category;
      filters := filters.(page := 1);
    }

    method HandlePremiumFilter()
      requires Valid()
      modifies this
      ensures Valid() && State() == PremiumToggled(old(State()))
    {
      if showPremiumOnly.None? {
        showPremiumOnly := Some(true);
      } else if showPremiumOnly == Some(true) {
        showPremiumOnly := Some(false);
      } else {
        showPremiumOnly := None;
      }
      filters := filters.(page := 1);
    }

    method ClearFilters()
      requires Valid()
      modifies this
      ensures Valid() && State() == Cleared(old(State()))
    {
      searchTerm := "";
      selectedCategory := "";
      showPremiumOnly := None;
      filters := filters.(page := 1);
    }

    /** The Previous button; clicking it while disabled does nothing. */
    method Previous()
      requires Valid()
      modifies this
      ensures Valid()
      ensures CurrentPage(old(filters.page)) == 1 ==> State() == old(State())
      ensures CurrentPage(old(filters.page)) != 1 ==> State() == old(State()).(filters := old(filters).(page := PreviousPage(CurrentPage(old(filters.page)))))
    {
      var current := CurrentPage(filters.page);
      if current != 1 {
        filters := filters.(page := if current - 1 > 1 then current - 1 else 1);
      }
    }

    /** The Next button, shown only when there is more than one page; clicking it while
        disabled does nothing. */
    method Next(totalPages: int)
      requires Valid() && totalPages > 1
      modifies this
      ensures Valid()
      ensures CurrentPage(old(filters.page)) == totalPages ==> State() == old(State())
      ensures CurrentPage(old(filters.page)) != totalPages ==>
        State() == old(State()).(filters := old(filters).(page := NextPage(CurrentPage(old(filters.page)), totalPages)))
    {
      var current := CurrentPage(filters.page);
      if current != totalPages {
        filters := filters.(page := if current + 1 < totalPages then current + 1 else totalPages);
      }
    }

    /** A numbered button, one for each page from 1 to totalPages. */
    method GoTo(page: int, totalPages: int)
      requires Valid() && 1 <= page <= totalPages
      modifies this
      ensures Valid() && State() == old(State()).(filters := old(filters).(page := page))
    {
      filters := filters.(page := page);
    }
  }
}
