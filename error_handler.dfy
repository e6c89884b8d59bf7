/** The error taxonomy of the backend: the `AppError` class, the
    catch-all `notFound` middleware and the global `errorHandler` that turns
    any error reaching Express into an HTTP status and a JSON body. */
module ErrorHandler {
  import opened JsValues

  /** An error object as it reaches `errorHandler`. Besides what `AppError`
      sets, it carries the fields the handler inspects on errors thrown by
      Mongoose (`code`, `keyValue`, `errors`) and jsonwebtoken (`name`). */
  datatype JsError = JsError(
    message: string,
    statusCode: Option<int>,
    status: Option<string>,
    isOperational: bool,
    name: string,
    code: Option<int>,
    keyValueFields: seq<string>,   // Object.keys(err.keyValue)
    errorMessages: seq<string>)    // Object.values(err.errors).map(v => v.message)

  /** What `errorHandler` sends: the HTTP status, the JSON `status` and
      `message`, and whether the stack and the raw error are included. */
  datatype ErrorResponse = ErrorResponse(httpStatus: int, status: string, message: string, detailed: bool)

  /** `AppError.status`: 'fail' exactly when the decimal form of the status
      code starts with the digit 4. */
  function StatusFor(statusCode: int): (r: string)
    ensures r == "fail" || r == "error"
  {
    if StartsWith(IntToString(statusCode), "4") then "fail" else "error"
  }

  /** `new AppError(message, statusCode)`. The constructor takes two
      arguments: a third one (such as the validator's per-field map) is dropped. */
  function NewAppError(message: string, statusCode: int): JsError
  {
    JsError(message, Some(statusCode), Some(StatusFor(statusCode)), true, "Error", None, [], [])
  }

  /** `new Error(message)`: no status code, not operational. */
  function PlainError(message: string): JsError
  {
    JsError(message, None, None, false, "Error", None, [], [])
  }

  /** `notFound`: every unmatched route becomes a 404 operational error. */
  function NotFound(originalUrl: string): (e: JsError)
    ensures e.statusCode == Some(404) && e.status == Some("fail") && e.isOperational
    ensures e.message == "Route not found - " + originalUrl
  {
    assert IntToString(404) == "404";
    NewAppError("Route not found - " + originalUrl, 404)
  }

  function DuplicateMessage(keyValueFields: seq<string>): string {
    var field := if |keyValueFields| > 0 then keyValueFields[0] else "undefined";
    "Duplicate field value: " + field + ". Please use another value."
  }

  function InvalidInputMessage(errorMessages: seq<string>): string {
    "Invalid input data: " + Join(errorMessages, ", ")
  }

  const InvalidTokenMessage := "Invalid token. Please log in again."
  const ExpiredTokenMessage := "Your token has expired. Please log in again."
  const GenericMessage := "Something went wrong"

  /** Errors the handler replaces by an `AppError` of its own. */
  predicate Translated(e: JsError) {
    e.code == Some(11000) || e.name in {"ValidationError", "JsonWebTokenError", "TokenExpiredError"}
  }

  /** The error the handler ends up reporting, decided by kind. */
  function Classified(e: JsError): (r: JsError)
    ensures r.statusCode.Some? && r.status.Some?
    ensures Translated(e) ==> r.isOperational && r.status == Some(StatusFor(r.statusCode.value))
  {
    if e.code == Some(11000) then NewAppError(DuplicateMessage(e.keyValueFields), 400)
    else if e.name == "ValidationError" then NewAppError(InvalidInputMessage(e.errorMessages), 400)
    else if e.name == "JsonWebTokenError" then NewAppError(InvalidTokenMessage, 401)
    else if e.name == "TokenExpiredError" then NewAppError(ExpiredTokenMessage, 401)
    else e.(statusCode := Some(if TruthyInt(e.statusCode) then e.statusCode.value else 500),
            status := Some(if TruthyStr(e.status) then e.status.value else "error"))
  }

  /** The response for error `e`, as a decision table over the error kinds. */
  function Respond(e: JsError, development: bool): (r: ErrorResponse)
    ensures r.detailed == development
    ensures e.code == Some(11000) ==> r.httpStatus == 400 && r.message == DuplicateMessage(e.keyValueFields)
    ensures e.code != Some(11000) && e.name == "ValidationError" ==>
              r.httpStatus == 400 && r.message == InvalidInputMessage(e.errorMessages)
    ensures e.code != Some(11000) && e.name in {"JsonWebTokenError", "TokenExpiredError"} ==> r.httpStatus == 401
    ensures !Translated(e) && !development && !e.isOperational ==>
              r == ErrorResponse(500, "error", GenericMessage, false)
    ensures !Translated(e) && (development || e.isOperational) ==>
              r.message == e.message &&
              r.httpStatus == (if TruthyInt(e.statusCode) then e.statusCode.value else 500)
  {
    var c := Classified(e);
    if development then ErrorResponse(c.statusCode.value, c.status.value, c.message, true)
    else if c.isOperational then ErrorResponse(c.statusCode.value, c.status.value, c.message, false)
    else ErrorResponse(500, "error", GenericMessage, false)
  }

  /** `errorHandler`: defaults the status code and status on the incoming
      error, then reassigns the error for each Mongoose or JWT kind in turn
      (a replaced error is an `AppError` named "Error", so at most one
      replacement fires), and finally renders it. */
  method HandleError(incoming: JsError, development: bool) returns (res: ErrorResponse)
    ensures res == Respond(incoming, development)
  {
    var err := incoming;
    err := err.(statusCode := Some(if TruthyInt(err.statusCode) then err.statusCode.value else 500));
    err := err.(status := Some(if TruthyStr(err.status) then err.status.value else "error"));
    if err.code == Some(11000) {
      err := NewAppError(DuplicateMessage(err.keyValueFields), 400);
    }
    if err.name == "ValidationError" {
      err := NewAppError(InvalidInputMessage(err.errorMessages), 400);
    }
    if err.name == "JsonWebTokenError" {
      err := NewAppError(InvalidTokenMessage, 401);
    }
    if err.name == "TokenExpiredError" {
      err := NewAppError(ExpiredTokenMessage, 401);
    }
    if development {
      return ErrorResponse(err.statusCode.value, err.status.value, err.message, true);
    }
    if err.isOperational {
      return ErrorResponse(err.statusCode.value, err.status.value, err.message, false);
    }
    return ErrorResponse(500, "error", GenericMessage, false);
  }

  /** An `AppError` with a non-zero code reaches the client with exactly
      that status and message, in every environment. */
  lemma AppErrorKeepsStatus(message: string, statusCode: int, development: bool)
    requires statusCode != 0
    ensures Respond(NewAppError(message, statusCode), development).httpStatus == statusCode
    ensures Respond(NewAppError(message, statusCode), development).message == message
  {
  }

  /** A plain `Error` (whatever `res.status` was set before it was thrown)
      always reaches the client as a 500. */
  lemma PlainErrorIs500(message: string, development: bool)
    ensures Respond(PlainError(message), development).httpStatus == 500
    ensures !development ==> Respond(PlainError(message), development).message == GenericMessage
  {
  }

  function Pow10(k: nat): (p: nat)
    ensures p >= 1
  {
    if k == 0 then 1 else 10 * Pow10(k - 1)
  }

  /** The leading digit of a positive number is that of the number with its
      last digit dropped. */
  lemma {:induction false} LeadingDigitOfQuotient(n: nat)
    requires n >= 10
    ensures NatToString(n)[0] == NatToString(n / 10)[0]
  {
  }

  /** For a code with k+1 decimal digits, `status` is 'fail' exactly when
      the code lies in [4·10^k, 5·10^k): 400–499 are 'fail', 500–599 and 200
      are 'error', and so is 4000–4999 'fail' and 40–49. */
  lemma {:induction false} StatusFailIffLeadingFour(c: int, k: nat)
    requires Pow10(k) <= c < 10 * Pow10(k)
    ensures StatusFor(c) == "fail" <==> 4 * Pow10(k) <= c < 5 * Pow10(k)
  {
    if k == 0 {
      assert NatToString(c) == [DigitChar(c)];
    } else {
      var p := Pow10(k - 1);
      assert Pow10(k) == 10 * p;
      assert p <= c / 10 < 10 * p;
      LeadingDigitOfQuotient(c);
      StatusFailIffLeadingFour(c / 10, k - 1);
      assert (4 * (10 * p) <= c < 5 * (10 * p)) <==> (4 * p <= c / 10 < 5 * p);
      assert StartsWith(IntToString(c), "4") <==> NatToString(c)[0] == '4';
      assert StartsWith(IntToString(c / 10), "4") <==> NatToString(c / 10)[0] == '4';
    }
  }

  /** Zero and negative codes never count as client errors. */
  lemma NonPositiveStatusIsError(c: int)
    requires c <= 0
    ensures StatusFor(c) == "error"
  {
    if c < 0 {
      assert IntToString(c)[0] == '-';
    } else {
      assert IntToString(0) == "0";
    }
  }
}
