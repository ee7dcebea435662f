/** The Express error handler of backend/src/middleware/errorHandler.ts and its `createError`.

    The handler copies the error into a local record and then overwrites that record through a
    sequence of independent tests, so the last test that matches decides; the reply's status
    falls back to 500 and its message to 'Server Error'. */
module ErrorHandler {
  import opened Wrappers
  import opened Text

  /** An error as the handler sees it: its `name` and `message`, MongoDB's numeric `code`, the
      `statusCode` and `isOperational` of an application error, the field messages of a
      validation error in the order their paths were validated, and the stack trace. */
  datatype Failure = Failure(
    name: string,
    message: string,
    code: Option<int>,
    statusCode: Option<int>,
    isOperational: bool,
    fieldMessages: seq<string>,
    stack: string)

  /** The JSON reply, `{ success: false, message, stack? }`, with its HTTP status. */
  datatype ErrorReply = ErrorReply(status: int, message: string, stack: Option<string>)

  const DuplicateKey := 11000

  /** The classification read from the last test back to the first: the first rule that
      applies here is the last one to overwrite the record in the handler. None when no rule
      applies and the error's own status and message stand. */
  function Rule(err: Failure): Option<(int, string)> {
    if Contains(err.message, "Stripe") then Some((400, "Payment processing error"))
    else if err.name == "TokenExpiredError" then Some((401, "Token expired"))
    else if err.name == "JsonWebTokenError" then Some((401, "Invalid token"))
    else if err.name == "ValidationError" then Some((400, Join(err.fieldMessages, ", ")))
    else if err.name == "MongoError" && err.code == Some(DuplicateKey) then Some((400, "Duplicate field value entered"))
    else if err.name == "CastError" then Some((404, "Resource not found"))
    else None
  }

  /** The reply to `err`: the rule's status and message, or else the error's own; a missing or
      zero status becomes 500, an empty message 'Server Error', and the stack is sent in
      development mode only. */
  function Response(err: Failure, development: bool): ErrorReply {
    var status := match Rule(err) case Some(c) => Some(c.0) case None => err.statusCode;
    var message := match Rule(err) case Some(c) => c.1 case None => err.message;
    ErrorReply(if status.None? || status.value == 0 then 500 else status.value,
               if message == "" then "Server Error" else message,
               if development then Some(err.stack) else None)
  }

  /** `errorHandler`, test after test as the handler runs them. */
  method HandleError(err: Failure, development: bool) returns (r: ErrorReply)
    ensures r == Response(err, development)
  {
    var statusCode := err.statusCode;
    var message := err.message;
    if err.name == "CastError" {
      message, statusCode := "Resource not found", Some(404);
    }
    if err.name == "MongoError" && err.code == Some(DuplicateKey) {
      message, statusCode := "Duplicate field value entered", Some(400);
    }
    if err.name == "ValidationError" {
      message, statusCode := Join(err.fieldMessages, ", "), Some(400);
    }
    if err.name == "JsonWebTokenError" {
      message, statusCode := "Invalid token", Some(401);
    }
    if err.name == "TokenExpiredError" {
      message, statusCode := "Token expired", Some(401);
    }
    if Contains(err.message, "Stripe") {
      message, statusCode := "Payment processing error", Some(400);
    }
    var status := if statusCode.None? || statusCode.value == 0 then 500 else statusCode.value;
    if message == "" {
      message := "Server Error";
    }
    r := ErrorReply(status, message, if development then Some(err.stack) else None);
  }

  /** Each error name gets its fixed status, unless the message mentions Stripe. */
  lemma NamedRules(err: Failure, development: bool)
    requires !Contains(err.message, "Stripe")
    ensures var r := Response(err, development);
      && (err.name == "CastError" ==> r.status == 404 && r.message == "Resource not found")
      && (err.name == "MongoError" && err.code == Some(DuplicateKey) ==> r.status == 400 && r.message == "Duplicate field value entered")
      && (err.name == "ValidationError" ==>
            r.status == 400 && (err.fieldMessages != [] && err.fieldMessages[0] != "" ==> r.message == Join(err.fieldMessages, ", ")))
      && (err.name == "JsonWebTokenError" ==> r.status == 401 && r.message == "Invalid token")
      && (err.name == "TokenExpiredError" ==> r.status == 401 && r.message == "Token expired")
  {
    if err.name == "ValidationError" && err.fieldMessages != [] && err.fieldMessages[0] != "" {
      JoinNonEmpty(err.fieldMessages, ", ");
    }
  }

  lemma JoinNonEmpty(xs: seq<string>, sep: string)
    requires xs != [] && xs[0] != ""
    ensures Join(xs, sep) != ""
  {
  }

  /** A message that mentions Stripe overrides every other classification. */
  lemma StripeOverrides(err: Failure, development: bool)
    requires Contains(err.message, "Stripe")
    ensures Response(err, development).status == 400 && Response(err, development).message == "Payment processing error"
  {
  }

  /** When no rule applies the error's own status stands, 500 when it has none; its own message
      stands, 'Server Error' when it is empty. */
  lemma Fallback(err: Failure, development: bool)
    requires !Contains(err.message, "Stripe")
    requires err.name !in {"CastError", "ValidationError", "JsonWebTokenError", "TokenExpiredError"}
    requires err.name == "MongoError" ==> err.code != Some(DuplicateKey)
    ensures var r := Response(err, development);
      && r.status == (if err.statusCode.None? || err.statusCode.value == 0 then 500 else err.statusCode.value)
      && r.message == (if err.message == "" then "Server Error" else err.message)
  {
  }

  /** Every reply has a status and a message, and carries the stack exactly in development. */
  lemma ReplyShape(err: Failure, development: bool)
    ensures var r := Response(err, development);
      && r.status != 0 && r.message != ""
      && (r.stack.Some? <==> development)
      && (r.stack.Some? ==> r.stack.value == err.stack)
  {
  }

  /** `createError(message, statusCode = 500)`: an `Error` carrying a status and marked operational. */
  function CreateError(message: string, statusCode: Option<int>, stack: string): (e: Failure)
    ensures e.name == "Error" && e.message == message && e.isOperational
    ensures e.statusCode == Some(statusCode.GetOr(500)) && e.code.None?
  {
    Failure("Error", message, None, Some(statusCode.GetOr(500)), true, [], stack)
  }

  /** An error made by `createError` is answered with its own status and message, unless that
      message mentions Stripe. */
  lemma CreatedErrorReply(message: string, statusCode: Option<int>, stack: string, development: bool)
    ensures var r := Response(CreateError(message, statusCode, stack), development);
      && (!Contains(message, "Stripe") ==>
            && r.status == (if statusCode.Some? && statusCode.value != 0 then statusCode.value else 500)
            && r.message == (if message == "" then "Server Error" else message))
      && (Contains(message, "Stripe") ==> r.status == 400)
  {
    var e := CreateError(message, statusCode, stack);
    assert e.name == "Error";
    assert e.name !in {"CastError", "ValidationError", "JsonWebTokenError", "TokenExpiredError", "MongoError"};
  }
}
