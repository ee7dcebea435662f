/** The express-validator checks the route files use, over the request body and query.

    A chain reads its field as a string (express-validator's `toString` of the JSON value; an
    absent field reads as ''), applies its `trim()` sanitizer before the validators that follow
    it, and runs every validator of the chain, each failing one adding its message. `optional()`
    skips the whole chain when the field is absent. */
module Validators {
  import opened Wrappers
  import opened Text
  import Paging

  /** A JSON scalar of a request body; numbers are integers in this model. */
  datatype Scalar = JString(s: string) | JNumber(n: int) | JBool(b: bool) | JNull

  /** A body field: a scalar or an array of scalars. */
  datatype Json = Value(v: Scalar) | List(items: seq<Scalar>)

  type Body = map<string, Json>
  type Query = map<string, string>

  function ScalarText(v: Scalar): string {
    match v
    case JString(s) => s
    case JNumber(n) => IntToString(n)
    case JBool(b) => if b then "true" else "false"
    case JNull => ""
  }

  function ScalarTexts(items: seq<Scalar>): seq<string> {
    seq(|items|, i requires 0 <= i < |items| => ScalarText(items[i]))
  }

  /** The string a validator sees: an array reads as its elements joined by ','. */
  function AsText(v: Json): string {
    match v
    case Value(s) => ScalarText(s)
    case List(items) => Join(ScalarTexts(items), ",")
  }

  /** The field `k` of the body as a string; '' when absent. */
  function Field(b: Body, k: string): string {
    if k in b then AsText(b[k]) else ""
  }

  function Param(q: Query, k: string): Option<string> {
    if k in q then Some(q[k]) else None
  }

  /** `isLength({ min, max })`. */
  predicate LengthIn(s: string, min: nat, max: nat) {
    min <= |s| <= max
  }

  /** The integers `isInt` accepts, /^[-+]?[0-9]+$/, with their value. */
  function IntLiteral(s: string): (r: Option<int>)
    ensures r.Some? ==> s != [] && (s[0] == '-' || s[0] == '+' || IsDigit(s[0]))
  {
    if s == [] then None
    else
      var unsigned := if s[0] == '-' || s[0] == '+' then s[1..] else s;
      if unsigned != [] && AllDigits(unsigned) then
        var v: int := DigitsValue(unsigned);
        Some(if s[0] == '-' then -v else v)
      else None
  }

  /** `isInt({ min, max })`, either bound optional. */
  predicate IntIn(s: string, min: Option<int>, max: Option<int>) {
    && IntLiteral(s).Some?
    && (min.Some? ==> IntLiteral(s).value >= min.value)
    && (max.Some? ==> IntLiteral(s).value <= max.value)
  }

  /** `isBoolean()` in its strict form. */
  predicate IsBoolean(s: string) {
    s == "true" || s == "false" || s == "1" || s == "0"
  }

  /** An integer `isInt` accepts is what `parseInt` reads, so the route's bound holds for the
      number the controller computes with. */
  lemma ParseIntOfLiteral(s: string)
    requires IntLiteral(s).Some?
    ensures Paging.ParseInt(s) == IntLiteral(s)
  {
    assert !IsWhitespace(s[0]);
    assert TrimStart(s) == s;
    var unsigned := if s[0] == '-' || s[0] == '+' then s[1..] else s;
    Paging.DigitPrefixOf(unsigned, "");
    assert unsigned + "" == unsigned;
  }
}
