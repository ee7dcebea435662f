/** The Lesson collection, after backend/src/models/Lesson.ts: the schema's trimming setters,
    defaults and validators, the `formattedDuration` virtual, and the queries of the
    `findByCategory` and `search` statics. */
module LessonModel {
  import opened Wrappers
  import opened Text
  import opened Types
  import opened Seqs

  const TitleMax: nat := 200
  const DescriptionMax: nat := 1000
  const CategoryMax: nat := 100
  const AuthorMax: nat := 100
  const TagMax: nat := 50
  const DurationMin: int := 1
  const DurationMax: int := 480

  // ---- the URL validator ----

  /** The schema's URL validator: an empty value passes; otherwise the value must match
      `^https?:\/\/.+`, so the scheme must be followed by a character a regular-expression `.`
      matches, that is one that is no line terminator. */
  predicate ValidUrl(v: string) {
    if v == "" then true
    else if StartsWith(v, "https://") then |v| > 8 && !IsLineTerminator(v[8])
    else StartsWith(v, "http://") && |v| > 7 && !IsLineTerminator(v[7])
  }

  /** What the pattern accepts after each scheme, and that nothing else but the empty value passes. */
  lemma UrlCases(v: string, rest: string)
    ensures ValidUrl("http://" + rest) <==> rest != "" && !IsLineTerminator(rest[0])
    ensures ValidUrl("https://" + rest) <==> rest != "" && !IsLineTerminator(rest[0])
    ensures v != "" && !StartsWith(v, "http://") && !StartsWith(v, "https://") ==> !ValidUrl(v)
  {
    var a := "http://" + rest;
    var b := "https://" + rest;
    assert a[..7] == "http://";
    assert !StartsWith(a, "https://") by {
      if |a| >= 8 { assert a[..8][4] == a[4] == ':'; }
    }
    assert b[..8] == "https://";
    assert |rest| > 0 ==> a[7] == rest[0] && b[8] == rest[0];
  }

  // ---- creating a lesson ----

  /** The body a lesson is created from. A required string that was not sent counts as "",
      which `required` refuses just the same. */
  datatype LessonBody = LessonBody(
    title: string,
    description: string,
    content: string,
    videoUrl: Option<string>,
    thumbnailUrl: Option<string>,
    duration: Option<int>,
    category: string,
    tags: seq<string>,
    isPremium: Option<bool>,
    author: string,
    order: Option<int>)

  function TrimAll(ts: seq<string>): (r: seq<string>)
    ensures |r| == |ts| && forall i :: 0 <= i < |ts| ==> r[i] == Trim(ts[i])
  {
    seq(|ts|, i requires 0 <= i < |ts| => Trim(ts[i]))
  }

  function TrimOpt(v: Option<string>): (r: Option<string>)
    ensures r.Some? <==> v.Some?
    ensures r.Some? ==> r.value == Trim(v.value)
  {
    match v
    case None => None
    case Some(s) => Some(Trim(s))
  }

  /** The `trim: true` setters, applied as the body is assigned to the document. */
  function Cast(b: LessonBody): LessonBody {
    b.(title := Trim(b.title), description := Trim(b.description), content := Trim(b.content),
       videoUrl := TrimOpt(b.videoUrl), thumbnailUrl := TrimOpt(b.thumbnailUrl),
       category := Trim(b.category), tags := TrimAll(b.tags), author := Trim(b.author))
  }

  /** Assigning an already assigned body again changes nothing. */
  lemma CastIdempotent(b: LessonBody)
    ensures Cast(Cast(b)) == Cast(b)
  {
    TrimIdempotent(b.title);
    TrimIdempotent(b.description);
    TrimIdempotent(b.content);
    TrimIdempotent(b.category);
    TrimIdempotent(b.author);
    if b.videoUrl.Some? { TrimIdempotent(b.videoUrl.value); }
    if b.thumbnailUrl.Some? { TrimIdempotent(b.thumbnailUrl.value); }
    forall i | 0 <= i < |b.tags| ensures TrimAll(TrimAll(b.tags))[i] == TrimAll(b.tags)[i] {
      TrimIdempotent(b.tags[i]);
    }
  }

  // The schema's validation messages.
  const TitleRequired := "Title is required"
  const TitleTooLong := "Title cannot exceed 200 characters"
  const DescriptionRequired := "Description is required"
  const DescriptionTooLong := "Description cannot exceed 1000 characters"
  const ContentRequired := "Content is required"
  const InvalidVideoUrl := "Video URL must be a valid URL"
  const InvalidThumbnailUrl := "Thumbnail URL must be a valid URL"
  const DurationRequired := "Duration is required"
  const DurationTooShort := "Duration must be at least 1 minute"
  const DurationTooLong := "Duration cannot exceed 8 hours"
  const CategoryRequired := "Category is required"
  const CategoryTooLong := "Category cannot exceed 100 characters"
  const TagTooLong := "Tag cannot exceed 50 characters"
  const AuthorRequired := "Author is required"
  const AuthorTooLong := "Author name cannot exceed 100 characters"

  /** The `required` and `maxlength` validators of a string path. */
  function StringErrors(v: string, required: string, max: nat, tooLong: string): (r: seq<string>)
    ensures r == [] <==> 1 <= |v| <= max
  {
    if v == "" then [required] else if |v| > max then [tooLong] else []
  }

  function UrlErrors(v: Option<string>, invalid: string): (r: seq<string>)
    ensures r == [] <==> v.None? || ValidUrl(v.value)
  {
    if v.Some? && !ValidUrl(v.value) then [invalid] else []
  }

  function DurationErrors(d: Option<int>): (r: seq<string>)
    ensures r == [] <==> d.Some? && DurationMin <= d.value <= DurationMax
  {
    if d.None? then [DurationRequired]
    else if d.value < DurationMin then [DurationTooShort]
    else if d.value > DurationMax then [DurationTooLong] else []
  }

  /** One message per tag over the limit. */
  function TagErrors(ts: seq<string>): (r: seq<string>)
    ensures r == [] <==> forall i :: 0 <= i < |ts| ==> |ts[i]| <= TagMax
  {
    if ts == [] then []
    else (if |ts[0]| > TagMax then [TagTooLong] else []) + TagErrors(ts[1..])
  }

  /** The schema's bounds on an assigned body. */
  predicate Conforms(b: LessonBody) {
    && 1 <= |b.title| <= TitleMax
    && 1 <= |b.description| <= DescriptionMax
    && b.content != ""
    && (b.videoUrl.None? || ValidUrl(b.videoUrl.value))
    && (b.thumbnailUrl.None? || ValidUrl(b.thumbnailUrl.value))
    && b.duration.Some? && DurationMin <= b.duration.value <= DurationMax
    && 1 <= |b.category| <= CategoryMax
    && (forall i :: 0 <= i < |b.tags| ==> |b.tags[i]| <= TagMax)
    && 1 <= |b.author| <= AuthorMax
  }

  /** The validators of `save()`, path by path in declaration order: the message of each that fails. */
  function LessonErrors(b: LessonBody): (r: seq<string>)
    ensures r == [] <==> Conforms(b)
  {
    StringErrors(b.title, TitleRequired, TitleMax, TitleTooLong)
    + StringErrors(b.description, DescriptionRequired, DescriptionMax, DescriptionTooLong)
    + (if b.content == "" then [ContentRequired] else [])
    + UrlErrors(b.videoUrl, InvalidVideoUrl)
    + UrlErrors(b.thumbnailUrl, InvalidThumbnailUrl)
    + DurationErrors(b.duration)
    + StringErrors(b.category, CategoryRequired, CategoryMax, CategoryTooLong)
    + TagErrors(b.tags)
    + StringErrors(b.author, AuthorRequired, AuthorMax, AuthorTooLong)
  }

  /** The document built from an assigned body: `isPremium` defaults to false and `order` to 0. */
  function NewLesson(id: LessonId, b: LessonBody, nowMs: Millis): (l: Lesson)
    ensures l.id == id && l.createdAt == nowMs
    ensures l.isPremium == (b.isPremium == Some(true))
    ensures l.order == b.order.GetOr(0)
    ensures l.title == b.title && l.description == b.description && l.content == b.content
    ensures l.category == b.category && l.author == b.author && l.tags == b.tags
    ensures l.videoUrl == b.videoUrl && l.thumbnailUrl == b.thumbnailUrl
    ensures b.duration.Some? ==> l.duration == b.duration.value
  {
    Lesson(id, b.title, b.description, b.content, b.videoUrl, b.thumbnailUrl, b.duration.GetOr(0),
           b.category, b.tags, b.isPremium.GetOr(false), b.author, b.order.GetOr(0), nowMs)
  }

  /** What every stored lesson satisfies: its strings trimmed and within bounds, its URLs valid,
      its duration between 1 and 480 minutes. */
  predicate WellFormed(l: Lesson) {
    && 1 <= |l.title| <= TitleMax && Trim(l.title) == l.title
    && 1 <= |l.description| <= DescriptionMax && Trim(l.description) == l.description
    && l.content != "" && Trim(l.content) == l.content
    && (l.videoUrl.None? || (ValidUrl(l.videoUrl.value) && Trim(l.videoUrl.value) == l.videoUrl.value))
    && (l.thumbnailUrl.None? || (ValidUrl(l.thumbnailUrl.value) && Trim(l.thumbnailUrl.value) == l.thumbnailUrl.value))
    && DurationMin <= l.duration <= DurationMax
    && 1 <= |l.category| <= CategoryMax && Trim(l.category) == l.category
    && (forall i :: 0 <= i < |l.tags| ==> |l.tags[i]| <= TagMax && Trim(l.tags[i]) == l.tags[i])
    && 1 <= |l.author| <= AuthorMax && Trim(l.author) == l.author
  }

  /** A body whose assigned form passes the validators saves as a well-formed lesson. */
  lemma CreatedLessonWellFormed(id: LessonId, b: LessonBody, nowMs: Millis)
    requires LessonErrors(Cast(b)) == []
    ensures WellFormed(NewLesson(id, Cast(b), nowMs))
  {
    CastIdempotent(b);
  }

  // ---- updating a lesson ----

  /** The body of an update: only the paths present are written. */
  datatype LessonPatch = LessonPatch(
    title: Option<string>,
    description: Option<string>,
    content: Option<string>,
    videoUrl: Option<string>,
    thumbnailUrl: Option<string>,
    duration: Option<int>,
    category: Option<string>,
    tags: Option<seq<string>>,
    isPremium: Option<bool>,
    author: Option<string>,
    order: Option<int>)

  /** The setters applied to the paths of an update. */
  function CastPatch(p: LessonPatch): LessonPatch {
    p.(title := TrimOpt(p.title), description := TrimOpt(p.description), content := TrimOpt(p.content),
       videoUrl := TrimOpt(p.videoUrl), thumbnailUrl := TrimOpt(p.thumbnailUrl),
       category := TrimOpt(p.category), author := TrimOpt(p.author),
       tags := if p.tags.Some? then Some(TrimAll(p.tags.value)) else None)
  }

  function OptStringErrors(v: Option<string>, required: string, max: nat, tooLong: string): (r: seq<string>)
    ensures r == [] <==> v.None? || 1 <= |v.value| <= max
  {
    if v.None? then [] else StringErrors(v.value, required, max, tooLong)
  }

  /** The update validators: those of the paths the update sets, and no others. */
  function PatchErrors(p: LessonPatch): (r: seq<string>)
    ensures r == [] <==>
      && (p.title.None? || 1 <= |p.title.value| <= TitleMax)
      && (p.description.None? || 1 <= |p.description.value| <= DescriptionMax)
      && (p.content.None? || p.content.value != "")
      && (p.videoUrl.None? || ValidUrl(p.videoUrl.value))
      && (p.thumbnailUrl.None? || ValidUrl(p.thumbnailUrl.value))
      && (p.duration.None? || DurationMin <= p.duration.value <= DurationMax)
      && (p.category.None? || 1 <= |p.category.value| <= CategoryMax)
      && (p.tags.None? || forall i :: 0 <= i < |p.tags.value| ==> |p.tags.value[i]| <= TagMax)
      && (p.author.None? || 1 <= |p.author.value| <= AuthorMax)
  {
    OptStringErrors(p.title, TitleRequired, TitleMax, TitleTooLong)
    + OptStringErrors(p.description, DescriptionRequired, DescriptionMax, DescriptionTooLong)
    + (if p.content == Some("") then [ContentRequired] else [])
    + UrlErrors(p.videoUrl, InvalidVideoUrl)
    + UrlErrors(p.thumbnailUrl, InvalidThumbnailUrl)
    + (if p.duration.None? then [] else DurationErrors(p.duration))
    + OptStringErrors(p.category, CategoryRequired, CategoryMax, CategoryTooLong)
    + (if p.tags.None? then [] else TagErrors(p.tags.value))
    + OptStringErrors(p.author, AuthorRequired, AuthorMax, AuthorTooLong)
  }

  /** The lesson with the update's paths written over it; the id and creation time stay. */
  function ApplyPatch(l: Lesson, p: LessonPatch): (r: Lesson)
    ensures r.id == l.id && r.createdAt == l.createdAt
    ensures r.title == p.title.GetOr(l.title) && r.description == p.description.GetOr(l.description)
    ensures r.content == p.content.GetOr(l.content) && r.duration == p.duration.GetOr(l.duration)
    ensures r.category == p.category.GetOr(l.category) && r.tags == p.tags.GetOr(l.tags)
    ensures r.isPremium == p.isPremium.GetOr(l.isPremium) && r.author == p.author.GetOr(l.author)
    ensures r.order == p.order.GetOr(l.order)
    ensures r.videoUrl == (if p.videoUrl.Some? then p.videoUrl else l.videoUrl)
    ensures r.thumbnailUrl == (if p.thumbnailUrl.Some? then p.thumbnailUrl else l.thumbnailUrl)
  {
    l.(title := p.title.GetOr(l.title), description := p.description.GetOr(l.description),
       content := p.content.GetOr(l.content),
       videoUrl := if p.videoUrl.Some? then p.videoUrl else l.videoUrl,
       thumbnailUrl := if p.thumbnailUrl.Some? then p.thumbnailUrl else l.thumbnailUrl,
       duration := p.duration.GetOr(l.duration), category := p.category.GetOr(l.category),
       tags := p.tags.GetOr(l.tags), isPremium := p.isPremium.GetOr(l.isPremium),
       author := p.author.GetOr(l.author), order := p.order.GetOr(l.order))
  }

  /** An update that passes its validators keeps a well-formed lesson well-formed: the paths it
      does not set were valid already. */
  lemma PatchKeepsWellFormed(l: Lesson, p: LessonPatch)
    requires WellFormed(l) && PatchErrors(CastPatch(p)) == []
    ensures WellFormed(ApplyPatch(l, CastPatch(p)))
  {
    var q := CastPatch(p);
    var r := ApplyPatch(l, q);
    TrimmedPathKept(l.title, p.title, 1, TitleMax);
    TrimmedPathKept(l.description, p.description, 1, DescriptionMax);
    TrimmedContentKept(l.content, p.content);
    TrimmedPathKept(l.category, p.category, 1, CategoryMax);
    TrimmedPathKept(l.author, p.author, 1, AuthorMax);
    TrimmedUrlKept(l.videoUrl, p.videoUrl);
    TrimmedUrlKept(l.thumbnailUrl, p.thumbnailUrl);
    if p.tags.Some? {
      TrimmedTagsValid(p.tags.value);
    }
  }

  /** A string path keeps its bounds and stays trimmed: either the update leaves it, or sets it to
      a trimmed value its validator accepted. */
  lemma TrimmedPathKept(current: string, v: Option<string>, min: nat, max: nat)
    requires min <= |current| <= max && Trim(current) == current
    requires TrimOpt(v).None? || min <= |TrimOpt(v).value| <= max
    ensures var r := TrimOpt(v).GetOr(current); min <= |r| <= max && Trim(r) == r
  {
    if v.Some? { TrimIdempotent(v.value); }
  }

  lemma TrimmedContentKept(current: string, v: Option<string>)
    requires current != "" && Trim(current) == current
    requires TrimOpt(v).None? || TrimOpt(v).value != ""
    ensures var r := TrimOpt(v).GetOr(current); r != "" && Trim(r) == r
  {
    if v.Some? { TrimIdempotent(v.value); }
  }

  lemma TrimmedUrlKept(current: Option<string>, v: Option<string>)
    requires current.None? || (ValidUrl(current.value) && Trim(current.value) == current.value)
    requires TrimOpt(v).None? || ValidUrl(TrimOpt(v).value)
    ensures var r := if TrimOpt(v).Some? then TrimOpt(v) else current;
      r.None? || (ValidUrl(r.value) && Trim(r.value) == r.value)
  {
    if v.Some? { TrimIdempotent(v.value); }
  }

  lemma TrimmedTagsValid(tags: seq<string>)
    requires forall i :: 0 <= i < |TrimAll(tags)| ==> |TrimAll(tags)[i]| <= TagMax
    ensures forall i :: 0 <= i < |TrimAll(tags)| ==> |TrimAll(tags)[i]| <= TagMax && Trim(TrimAll(tags)[i]) == TrimAll(tags)[i]
  {
    forall i | 0 <= i < |tags| ensures Trim(TrimAll(tags)[i]) == TrimAll(tags)[i] {
      TrimIdempotent(tags[i]);
    }
  }

  // ---- formattedDuration ----

  /** JavaScript's `%`: the remainder takes the sign of the dividend. */
  function JsRem(a: int, b: int): (r: int)
    requires b > 0
    ensures a >= 0 ==> 0 <= r < b && r == a % b
    ensures a < 0 ==> -b < r <= 0
    ensures exists q: int :: a == q * b + r
  {
    if a >= 0 then
      assert a == (a / b) * b + a % b;
      a % b
    else
      var r := -((-a) % b);
      assert a == -((-a) / b) * b + r;
      r
  }

  /** The `formattedDuration` virtual: "Hh Mm" with H = floor(d / 60) and M = d % 60 when
      there is at least an hour, "Mm" otherwise. */
  function FormattedDuration(d: int): string {
    var hours := d / 60;
    var minutes := JsRem(d, 60);
    if hours > 0 then IntToString(hours) + "h " + IntToString(minutes) + "m" else IntToString(minutes) + "m"
  }

  lemma DigitsHaveNoH(s: string)
    requires AllDigits(s)
    ensures 'h' !in s
  {
  }

  /** A non-negative duration renders as the decimal hours and minutes it is made of. */
  lemma FormattedDurationOfNat(d: nat)
    ensures d >= 60 ==> FormattedDuration(d) == NatToString(d / 60) + "h " + NatToString(d % 60) + "m"
    ensures d < 60 ==> FormattedDuration(d) == NatToString(d) + "m"
  {
  }

  /** The rendering carries an 'h' exactly when there is at least an hour. */
  lemma HoursShownIffHour(d: nat)
    ensures 'h' in FormattedDuration(d) <==> d >= 60
  {
    FormattedDurationOfNat(d);
    if d >= 60 {
      assert FormattedDuration(d)[|NatToString(d / 60)|] == 'h';
    } else {
      DigitsHaveNoH(NatToString(d));
    }
  }

  /** Different non-negative durations are always shown differently. */
  lemma FormattedDurationInjective(a: nat, b: nat)
    requires FormattedDuration(a) == FormattedDuration(b)
    ensures a == b
  {
    FormattedDurationOfNat(a);
    FormattedDurationOfNat(b);
    HoursShownIffHour(a);
    HoursShownIffHour(b);
    if a >= 60 && b >= 60 {
      HoursMinutesInjective(NatToString(a / 60), NatToString(a % 60), NatToString(b / 60), NatToString(b % 60));
      NatToStringInjective(a / 60, b / 60);
      NatToStringInjective(a % 60, b % 60);
    } else if a < 60 && b < 60 {
      var s := FormattedDuration(a);
      assert NatToString(a) == s[..|s| - 1] == NatToString(b);
      NatToStringInjective(a, b);
    } else {
      assert false;
    }
  }

  /** "Hh Mm" with decimal H and M determines H and M. */
  lemma HoursMinutesInjective(ha: string, ma: string, hb: string, mb: string)
    requires AllDigits(ha) && AllDigits(hb)
    requires ha + "h " + ma + "m" == hb + "h " + mb + "m"
    ensures ha == hb && ma == mb
  {
    var s := ha + "h " + ma + "m";
    DigitsHaveNoH(ha);
    DigitsHaveNoH(hb);
    assert s == ha + ['h'] + (" " + ma + "m");
    assert s == hb + ['h'] + (" " + mb + "m");
    IndexOfAfter(ha, 'h', " " + ma + "m");
    IndexOfAfter(hb, 'h', " " + mb + "m");
    assert ha == s[..|ha|] == hb;
    assert ma == s[|ha| + 2..|s| - 1] == mb;
  }

  /** Every valid duration (1 to 480 minutes) is shown as its hours and minutes. */
  lemma FormattedValidDuration(d: int)
    requires DurationMin <= d <= DurationMax
    ensures d < 60 ==> FormattedDuration(d) == NatToString(d) + "m"
    ensures 60 <= d ==> FormattedDuration(d) == NatToString(d / 60) + "h " + NatToString(d % 60) + "m"
    ensures d / 60 <= 8
  {
    FormattedDurationOfNat(d);
  }

  // ---- findByCategory, search ----

  /** The constraints a lesson query can carry. `search` is the pattern of the case-insensitive
      regular expression matched against title, description and tags. */
  datatype LessonQuery = LessonQuery(category: Option<string>, isPremium: Option<bool>, search: Option<string>)

  /** Whether the case-insensitive regular expression `pattern` finds a match in `text`. */
  type RegexTest = (string, string) -> bool

  /** What `find(query)` accepts. Mongoose casts an equality filter on `category` through the
      path's `trim` setter before the query runs; the `$regex` pattern is passed as it is. */
  function Accepts(q: LessonQuery, rx: RegexTest): Lesson -> bool {
    (l: Lesson) =>
      && (q.category.None? || l.category == Trim(q.category.value))
      && (q.isPremium.None? || l.isPremium == q.isPremium.value)
      && (q.search.None? || rx(q.search.value, l.title) || rx(q.search.value, l.description)
          || exists i :: 0 <= i < |l.tags| && rx(q.search.value, l.tags[i]))
  }

  /** `sort({ order: 1, createdAt: -1 })`: lower `order` first, newer first among equals. */
  predicate Precedes(a: Lesson, b: Lesson) {
    a.order < b.order || (a.order == b.order && a.createdAt >= b.createdAt)
  }

  lemma PrecedesIsTotalPreorder()
    ensures TotalPreorder(Precedes)
  {
  }

  /** `find(query).sort({ order: 1, createdAt: -1 })`. */
  function Find(ls: seq<Lesson>, q: LessonQuery, rx: RegexTest): seq<Lesson> {
    SortBy(Filter(ls, Accepts(q, rx)), Precedes)
  }

  /** A query returns exactly the lessons it accepts, each as often as stored, in sort order. */
  lemma FindSpec(ls: seq<Lesson>, q: LessonQuery, rx: RegexTest)
    ensures SortedBy(Find(ls, q, rx), Precedes)
    ensures multiset(Find(ls, q, rx)) == multiset(Filter(ls, Accepts(q, rx)))
    ensures forall l :: l in Find(ls, q, rx) <==> l in ls && Accepts(q, rx)(l)
  {
    PrecedesIsTotalPreorder();
    SortBySortsAndPermutes(Filter(ls, Accepts(q, rx)), Precedes);
    forall l ensures l in Find(ls, q, rx) <==> l in Filter(ls, Accepts(q, rx)) {
      assert l in Find(ls, q, rx) <==> l in multiset(Find(ls, q, rx));
    }
  }

  /** The `findByCategory(category, isPremium)` query: premium is constrained only when given. */
  function FindByCategory(category: string, isPremium: Option<bool>): (q: LessonQuery)
    ensures q.category == Some(category) && q.search.None?
    ensures q.isPremium.Some? <==> isPremium.Some?
    ensures isPremium.Some? ==> q.isPremium == isPremium
  {
    LessonQuery(Some(category), isPremium, None)
  }

  /** The `search(term, isPremium)` query. */
  function Search(term: string, isPremium: Option<bool>): (q: LessonQuery)
    ensures q.search == Some(term) && q.category.None?
    ensures q.isPremium.Some? <==> isPremium.Some?
    ensures isPremium.Some? ==> q.isPremium == isPremium
  {
    LessonQuery(None, isPremium, Some(term))
  }

  /** Leaving `isPremium` undefined finds free and premium lessons alike. */
  lemma UndefinedPremiumUnconstrained(category: string, rx: RegexTest, l: Lesson)
    ensures Accepts(FindByCategory(category, None), rx)(l) <==> l.category == Trim(category)
  {
  }

  /** A category filter finds the same lessons whether or not it is sent padded: the cast
      trims it, and trimming twice is trimming once. */
  lemma PaddedCategoryFindsSame(ls: seq<Lesson>, category: string, isPremium: Option<bool>, search: Option<string>, rx: RegexTest)
    ensures Find(ls, LessonQuery(Some(category), isPremium, search), rx)
         == Find(ls, LessonQuery(Some(Trim(category)), isPremium, search), rx)
  {
    TrimIdempotent(category);
    FilterAgrees(ls, Accepts(LessonQuery(Some(category), isPremium, search), rx),
                 Accepts(LessonQuery(Some(Trim(category)), isPremium, search), rx));
  }
}
