/** The pagination the list handlers share: `parseInt(q) || default` for the page and limit
    parameters, `skip((page - 1) * limit).limit(limit)` as MongoDB applies it, and
    `Math.ceil(total / limit)` for the page count. */
module Paging {
  import opened Wrappers
  import opened Text
  import opened Seqs

  /** The longest prefix of decimal digits. */
  function DigitPrefix(s: string): (r: string)
    ensures AllDigits(r) && |r| <= |s| && r == s[..|r|]
    ensures |r| < |s| ==> !IsDigit(s[|r|])
  {
    if s != [] && IsDigit(s[0]) then
      var rest := DigitPrefix(s[1..]);
      assert s[..|rest| + 1] == [s[0]] + s[1..][..|rest|];
      [s[0]] + rest
    else []
  }

  /** `parseInt(s)` in base ten: leading white space skipped, an optional sign, then as many
      digits as follow; None where JavaScript gives NaN. */
  function ParseInt(s: string): Option<int> {
    var t := TrimStart(s);
    var negative := t != [] && t[0] == '-';
    var unsigned := if t != [] && (t[0] == '-' || t[0] == '+') then t[1..] else t;
    var digits := DigitPrefix(unsigned);
    var v: int := if digits == [] then 0 else DigitsValue(digits);
    if digits == [] then None else if negative then Some(-v) else Some(v)
  }

  /** A number's decimal digits parse back to it, whatever non-digit text follows them. */
  lemma ParseIntOfDigits(n: nat, rest: string)
    requires rest == [] || !IsDigit(rest[0])
    ensures ParseInt(NatToString(n) + rest) == Some(n)
  {
    var d := NatToString(n);
    var s := d + rest;
    assert s[0] == d[0] && IsDigit(d[0]);
    assert TrimStart(s) == s;
    DigitPrefixOf(d, rest);
    ParseNatToString(n);
  }

  lemma ParseIntOfNat(n: nat)
    ensures ParseInt(NatToString(n)) == Some(n)
  {
    ParseIntOfDigits(n, "");
    assert NatToString(n) + "" == NatToString(n);
  }

  lemma {:induction false} DigitPrefixOf(d: string, rest: string)
    requires AllDigits(d) && (rest == [] || !IsDigit(rest[0]))
    ensures DigitPrefix(d + rest) == d
  {
    if d != [] {
      assert (d + rest)[1..] == d[1..] + rest;
      DigitPrefixOf(d[1..], rest);
      assert d == [d[0]] + d[1..];
    } else {
      assert d + rest == rest;
    }
  }

  /** `parseInt(q) || fallback`: the fallback when the parameter is missing, is no number, or is 0. */
  function IntOr(param: Option<string>, fallback: int): (r: int)
    ensures param.None? ==> r == fallback
    ensures param.Some? && ParseInt(param.value).Some? && ParseInt(param.value).value != 0 ==> r == ParseInt(param.value).value
    ensures param.Some? && (ParseInt(param.value).None? || ParseInt(param.value) == Some(0)) ==> r == fallback
    ensures fallback != 0 ==> r != 0
  {
    if param.None? then fallback
    else match ParseInt(param.value)
      case None => fallback
      case Some(v) => if v == 0 then fallback else v
  }

  /** `Math.ceil(total / limit)`. */
  function TotalPages(total: nat, limit: int): (r: int)
    requires limit != 0
    ensures limit > 0 ==> r >= 0
    ensures limit > 0 && total == 0 ==> r == 0
    ensures limit < 0 ==> r == -(total / -limit)
  {
    if limit > 0 then (total + limit - 1) / limit else -(total / -limit)
  }

  /** `pages` pages of `limit` hold `total` items, and one page fewer would not. */
  predicate FewestPages(pages: int, total: int, limit: int) {
    (pages - 1) * limit < total <= pages * limit
  }

  /** For a positive limit the count is the fewest pages of `limit` that hold `total`. */
  lemma TotalPagesBound(total: nat, limit: int)
    requires limit > 0
    ensures FewestPages(TotalPages(total, limit), total, limit)
  {
    var r := TotalPages(total, limit);
    var n := total + limit - 1;
    assert r == n / limit;
    assert r * limit <= n < r * limit + limit;
    assert (r - 1) * limit == r * limit - limit;
  }

  /** `skip(skip).limit(limit)` as MongoDB runs it: a negative skip is refused; a limit of 0 means
      no limit, and a negative one returns at most its absolute value of documents. */
  function SkipLimit<T>(s: seq<T>, skip: int, limit: int): (r: Result<seq<T>>)
    ensures r.Ok? <==> skip >= 0
    ensures r.Ok? && limit != 0 ==> |r.value| <= if limit > 0 then limit else -limit
    ensures r.Ok? ==> |r.value| <= |s| && forall i :: 0 <= i < |r.value| ==> skip + i < |s| && r.value[i] == s[skip + i]
    ensures r.Ok? && limit > 0 ==> r.value == Window(s, skip, limit)
  {
    if skip < 0 then Err("skip must be non-negative")
    else if limit == 0 then Ok(if skip >= |s| then [] else s[skip..])
    else Ok(Window(s, skip, if limit > 0 then limit else -limit))
  }

  /** The `data` of a list reply. */
  datatype PageOf<T> = PageOf(items: seq<T>, total: nat, page: int, limit: int, totalPages: int)

  /** `(page - 1) * limit`, the number of matches a page skips. */
  function Skip(page: int, limit: int): int {
    (page - 1) * limit
  }

  lemma SkipOfPositive(page: int, limit: int)
    requires page >= 1 && limit >= 1
    ensures Skip(page, limit) >= 0
  {
    assert (page - 1) * limit >= 0;
  }

  /** A list handler's page of the sorted matches `all`: None where the query fails. */
  function Paginate<T>(all: seq<T>, pageParam: Option<string>, limitParam: Option<string>): (r: Option<PageOf<T>>)
    ensures r.Some? <==> Skip(IntOr(pageParam, 1), IntOr(limitParam, 10)) >= 0
    ensures r.Some? ==>
      && r.value.page == IntOr(pageParam, 1) && r.value.limit == IntOr(limitParam, 10)
      && r.value.total == |all| && r.value.totalPages == TotalPages(|all|, r.value.limit)
      && (r.value.limit > 0 ==> |r.value.items| <= r.value.limit)
      && forall i :: 0 <= i < |r.value.items| ==>
           Skip(r.value.page, r.value.limit) + i < |all| && r.value.items[i] == all[Skip(r.value.page, r.value.limit) + i]
  {
    var page := IntOr(pageParam, 1);
    var limit := IntOr(limitParam, 10);
    match SkipLimit(all, Skip(page, limit), limit)
    case Err(_) => None
    case Ok(items) => Some(PageOf(items, |all|, page, limit, TotalPages(|all|, limit)))
  }

  /** Every item of a page is one of the matches. */
  lemma PageItemsIn<T>(all: seq<T>, pageParam: Option<string>, limitParam: Option<string>)
    ensures var r := Paginate(all, pageParam, limitParam);
      r.Some? ==> forall i :: 0 <= i < |r.value.items| ==> r.value.items[i] in all
  {
    var r := Paginate(all, pageParam, limitParam);
    if r.Some? {
      var skip := Skip(r.value.page, r.value.limit);
      forall i | 0 <= i < |r.value.items| ensures r.value.items[i] in all {
        assert r.value.items[i] == all[skip + i];
      }
    }
  }

  /** A page and a limit of at least 1 never make the query fail, and the page is the window
      of `all` that starts after the skipped matches. */
  lemma PageOfPositive<T>(all: seq<T>, pageParam: Option<string>, limitParam: Option<string>)
    requires IntOr(pageParam, 1) >= 1 && IntOr(limitParam, 10) >= 1
    ensures var r := Paginate(all, pageParam, limitParam);
      && r.Some?
      && r.value.items == Window(all, Skip(r.value.page, r.value.limit), r.value.limit)
  {
    var page := IntOr(pageParam, 1);
    var limit := IntOr(limitParam, 10);
    SkipOfPositive(page, limit);
    var w := SkipLimit(all, Skip(page, limit), limit);
    assert w.Ok? && w.value == Window(all, Skip(page, limit), limit);
  }

  lemma IntOrOfNat(n: nat, fallback: int)
    requires n != 0
    ensures IntOr(Some(NatToString(n)), fallback) == n
  {
    ParseIntOfNat(n);
  }

  /** The query parameters a route validator lets through (a page of at least 1, a limit between
      1 and 100, in plain decimal) never make the query fail: the page is the window of `all`
      that starts at `(page - 1) * limit`, and the pages are counted for that limit. */
  lemma ValidatedPaging<T>(all: seq<T>, page: nat, limit: nat)
    requires 1 <= page && 1 <= limit <= 100
    ensures
      var r := Paginate(all, Some(NatToString(page)), Some(NatToString(limit)));
      && r.Some? && r.value.page == page && r.value.limit == limit
      && r.value.items == Window(all, Skip(page, limit), limit)
      && |r.value.items| <= limit
      && r.value.total == |all| && r.value.totalPages == TotalPages(|all|, limit)
  {
    IntOrOfNat(page, 1);
    IntOrOfNat(limit, 10);
    PageOfPositive(all, Some(NatToString(page)), Some(NatToString(limit)));
  }

  /** With validated parameters the page holds at most `limit` matches, and the page count is
      the fewest pages of that size that hold them all. */
  lemma ValidatedPageCount<T>(all: seq<T>, pageParam: Option<string>, limitParam: Option<string>, page: nat, limit: nat)
    requires 1 <= page && 1 <= limit <= 100
    requires pageParam == Some(NatToString(page)) && limitParam == Some(NatToString(limit))
    ensures var r := Paginate(all, pageParam, limitParam);
      && r.Some? && |r.value.items| <= limit
      && FewestPages(r.value.totalPages, r.value.total, limit)
  {
    ValidatedPaging(all, page, limit);
    TotalPagesBound(|all|, limit);
  }

  /** Missing parameters give page 1 of 10. */
  lemma DefaultPaging<T>(all: seq<T>)
    ensures
      var r := Paginate(all, None, None);
      && r.Some? && r.value.page == 1 && r.value.limit == 10
      && r.value.items == Window(all, 0, 10)
  {
    PageOfPositive(all, None, None);
  }
}
