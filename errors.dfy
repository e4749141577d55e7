/**
 * The global error handler: how an error that reached `next(err)` becomes the
 * `{status, message}` response, in development and in production.
 */
module Errors {
  import opened Common

  /**
   * An error object as the handler sees it. `AppError` instances and the errors
   * thrown by the document mapper, the token library and the mail transport
   * all carry a subset of these properties; a property the error does not have
   * is `None` (or empty).
   */
  datatype Err = Err(
    name: string,                 // err.name: "Error", "CastError", "ValidationError", ...
    message: string,
    code: Option<int>,            // driver error code, 11000 for a duplicate key
    statusCode: Option<int>,
    status: Option<string>,
    isOperational: bool,
    path: string,                 // CastError: the path whose value did not cast
    value: string,                // CastError: the offending value, as text
    keyValue: seq<string>,        // duplicate key: the values of the duplicated keys
    fieldMessages: seq<string>,   // ValidationError: the messages of err.errors, in order
    stack: string)

  /** The status word `AppError` derives from its status code: "fail" for a
      client error, "error" otherwise (also when no code was given). */
  function StatusWord(statusCode: Option<int>): string {
    if statusCode.Some? && 400 <= statusCode.value < 500 then "fail" else "error"
  }

  /** `new AppError(message, statusCode)`: an operational error. */
  function AppError(message: string, statusCode: Option<int>): (e: Err)
    ensures e.isOperational && e.name == "Error" && e.code == None
    ensures e.message == message && e.statusCode == statusCode
  {
    Err("Error", message, None, statusCode, Some(StatusWord(statusCode)), true, "", "", [], [], "")
  }

  /** An error that is not an `AppError`: a library or runtime exception. */
  function Thrown(name: string, message: string): (e: Err)
    ensures !e.isOperational && e.statusCode == None && e.status == None
  {
    Err(name, message, None, None, None, false, "", "", [], [], "")
  }

  /** What a string passed to `next` looks like to the handler: a value with
      none of an error's properties (its text is not read by anything). */
  function NotAnError(): (e: Err)
    ensures !e.isOperational && e.statusCode == None && e.code == None
  {
    Err("", "", None, None, None, false, "", "", [], [], "")
  }

  /** The result of an operation that may throw. */
  datatype Result<T> = Ok(value: T) | Fail(err: Err)

  // ---------------------------------------------------------------------------
  // errors raised by the document mapper
  // ---------------------------------------------------------------------------

  /** The failure of one path of a document: the message of the first of its
      validators that rejected the value. */
  datatype ValidatorError = ValidatorError(path: string, message: string)

  function Messages(fs: seq<ValidatorError>): (ms: seq<string>)
    ensures |ms| == |fs|
    ensures forall i :: 0 <= i < |fs| ==> ms[i] == fs[i].message
  {
    if fs == [] then [] else [fs[0].message] + Messages(fs[1..])
  }

  function Lines(fs: seq<ValidatorError>): (ls: seq<string>)
    ensures |ls| == |fs|
    ensures forall i :: 0 <= i < |fs| ==> ls[i] == fs[i].path + ": " + fs[i].message
  {
    if fs == [] then [] else [fs[0].path + ": " + fs[0].message] + Lines(fs[1..])
  }

  /** The `ValidationError` a failed save raises: "<Model> validation failed:"
      followed by each failing path and its message; `err.errors` holds the
      per-path messages in order. */
  function ValidationError(model: string, fs: seq<ValidatorError>): (e: Err)
    ensures e.name == "ValidationError" && !e.isOperational && e.code == None
    ensures e.statusCode == None && e.fieldMessages == Messages(fs)
  {
    Err("ValidationError", model + " validation failed: " + JoinWith(Lines(fs), ", "),
        None, None, None, false, "", "", [], Messages(fs), "")
  }

  /** The driver's error for a write that would repeat a unique key. */
  function DuplicateKey(values: seq<string>): (e: Err)
    ensures e.code == Some(11000) && !e.isOperational && e.keyValue == values
  {
    Err("MongoServerError", "E11000 duplicate key error", Some(11000), None, None, false, "", "", values, [], "")
  }

  // ---------------------------------------------------------------------------
  // the handle* mappers
  // ---------------------------------------------------------------------------

  const JwtMessage := "Invalid token. please login again!"
  const ExpiredMessage := "Your token has expired! please login again"
  const DuplicateMessage := "You have added this series name before. Please use another name"
  const GenericMessage := "Somthing went wrong 💥"

  function HandleJWTError(): (e: Err)
    ensures e.isOperational && e.statusCode == Some(401) && e.status == Some("fail")
    ensures e.message == JwtMessage
  {
    AppError(JwtMessage, Some(401))
  }

  function HandleTokenExpiredError(): (e: Err)
    ensures e.isOperational && e.statusCode == Some(401) && e.status == Some("fail")
    ensures e.message == ExpiredMessage
  {
    AppError(ExpiredMessage, Some(401))
  }

  function HandleCastErrorDB(err: Err): (e: Err)
    ensures e.isOperational && e.statusCode == Some(400) && e.status == Some("fail")
    ensures StartsWith(e.message, "Invalid " + err.path)
  {
    AppError("Invalid " + err.path + ": " + err.value, Some(400))
  }

  function HandleDuplicateErrorDB(err: Err): (e: Err)
    ensures e.isOperational && e.statusCode == Some(400) && e.status == Some("fail")
    ensures e.message == DuplicateMessage
  {
    AppError(DuplicateMessage, Some(400))
  }

  function HandleValidationErrorDB(err: Err): (e: Err)
    ensures e.isOperational && e.statusCode == Some(400) && e.status == Some("fail")
    ensures StartsWith(e.message, "Invalid input data: ")
  {
    AppError("Invalid input data: " + JoinWith(err.fieldMessages, ". "), Some(400))
  }

  // ---------------------------------------------------------------------------
  // responses
  // ---------------------------------------------------------------------------

  datatype ErrorResponse =
    | DevResponse(statusCode: int, status: string, error: Err, message: string, stack: string)
    | ProdResponse(statusCode: int, status: string, message: string)

  /** `err.statusCode = err.statusCode || 500; err.status = err.status || "error"`. */
  function WithDefaults(err: Err): (e: Err)
    ensures e.statusCode.Some? && e.status.Some?
    ensures err.statusCode.Some? && err.statusCode.value != 0 ==> e.statusCode == err.statusCode
    ensures err.statusCode.None? || err.statusCode.value == 0 ==> e.statusCode == Some(500)
    ensures err.status.Some? && err.status.value != "" ==> e.status == err.status
    ensures err.status.None? || err.status.value == "" ==> e.status == Some("error")
    ensures e.(statusCode := err.statusCode, status := err.status) == err
  {
    err.(statusCode := if err.statusCode.Some? && err.statusCode.value != 0 then err.statusCode else Some(500),
         status := if err.status.Some? && err.status.value != "" then err.status else Some("error"))
  }

  /** Reference definition of the production translation: the first rule that
      applies decides. */
  function ProdTranslate(err: Err): (t: Err)
    ensures t != err ==> t.isOperational && t.name == "Error" && t.code == None
    ensures err.statusCode.Some? && err.status.Some? ==> t.statusCode.Some? && t.status.Some?
  {
    if err.name == "CastError" then HandleCastErrorDB(err)
    else if err.code == Some(11000) then HandleDuplicateErrorDB(err)
    else if err.name == "ValidationError" then HandleValidationErrorDB(err)
    else if err.name == "JsonWebTokenError" then HandleJWTError()
    else if err.name == "TokenExpiredError" then HandleTokenExpiredError()
    else err
  }

  /** `sendErrorProd`: operational errors are shown as they are, anything else
      becomes a generic 500. */
  function SendErrorProd(err: Err): (r: ErrorResponse)
    requires err.statusCode.Some? && err.status.Some?
    ensures r.ProdResponse?
    ensures err.isOperational ==> r.statusCode == err.statusCode.value && r.message == err.message
    ensures !err.isOperational ==> r.statusCode == 500 && r.status == "error" && r.message == GenericMessage
  {
    if err.isOperational then ProdResponse(err.statusCode.value, err.status.value, err.message)
    else ProdResponse(500, "error", GenericMessage)
  }

  /** What the handler sends for `err` under `NODE_ENV = nodeEnv`; `None` when
      the environment is neither "development" nor "production". */
  function Respond(err: Err, nodeEnv: string): (r: Option<ErrorResponse>)
    ensures r.Some? <==> nodeEnv == "development" || nodeEnv == "production"
    ensures nodeEnv == "development" ==> r.value.DevResponse? && r.value.message == err.message
    ensures nodeEnv == "production" ==> r.value.ProdResponse?
  {
    var e := WithDefaults(err);
    if nodeEnv == "development" then
      Some(DevResponse(e.statusCode.value, e.status.value, e, e.message, e.stack))
    else if nodeEnv == "production" then
      Some(SendErrorProd(ProdTranslate(e)))
    else None
  }

  /**
   * The exported handler as written: fill in the defaults on `err`, then in
   * production pass the error through five independent `if` statements, each of
   * which may replace it, and send what is left.
   */
  method GlobalErrorHandler(err: Err, nodeEnv: string) returns (resp: Option<ErrorResponse>)
    ensures resp == Respond(err, nodeEnv)
  {
    var e := err;
    e := e.(statusCode := if e.statusCode.Some? && e.statusCode.value != 0 then e.statusCode else Some(500));
    e := e.(status := if e.status.Some? && e.status.value != "" then e.status else Some("error"));
    if nodeEnv == "development" {
      resp := Some(DevResponse(e.statusCode.value, e.status.value, e, e.message, e.stack));
    } else if nodeEnv == "production" {
      var error := TranslateAsWritten(e);
      resp := Some(SendErrorProd(error));
    } else {
      resp := None;
    }
  }

  /** The production branch's five `if` statements, in order. */
  method TranslateAsWritten(e: Err) returns (error: Err)
    ensures error == ProdTranslate(e)
  {
    error := e;
    // Each replacement is an AppError named "Error" without a code, which no
    // later test matches: the first test that applies decides.
    ghost var translated := false;
    if error.name == "CastError" { error := HandleCastErrorDB(error); translated := true; }
    assert translated ==> error.name == "Error" && error.code == None;
    if error.code == Some(11000) { error := HandleDuplicateErrorDB(error); translated := true; }
    assert translated ==> error.name == "Error" && error.code == None;
    if error.name == "ValidationError" { error := HandleValidationErrorDB(error); translated := true; }
    assert translated ==> error.name == "Error" && error.code == None;
    if error.name == "JsonWebTokenError" { error := HandleJWTError(); translated := true; }
    assert translated ==> error.name == "Error" && error.code == None;
    if error.name == "TokenExpiredError" { error := HandleTokenExpiredError(); }
  }

  // ---------------------------------------------------------------------------
  // properties of the classification
  // ---------------------------------------------------------------------------

  /** Translated errors are operational and carry their own status code, so
      the production response is exactly theirs. */
  lemma TranslatedIsOperational(err: Err)
    requires ProdTranslate(err) != err
    ensures var t := ProdTranslate(err);
      t.isOperational && t.statusCode.Some? && t.status.Some? &&
      (t.statusCode == Some(400) || t.statusCode == Some(401)) &&
      t.status == Some("fail")
  {
  }

  /** A missing status code becomes 500 and a missing status "error". */
  lemma DefaultsInDevelopment(err: Err)
    requires err.statusCode.None? && err.status.None?
    ensures Respond(err, "development") ==
      Some(DevResponse(500, "error", err.(statusCode := Some(500), status := Some("error")), err.message, err.stack))
  {
  }

  /** In development the error is reported unmapped: its own status code (or
      500), message and stack, whatever its name. */
  lemma DevelopmentIsUnmapped(err: Err)
    requires err.statusCode.Some? && err.statusCode.value != 0
    ensures Respond(err, "development").Some?
    ensures var r := Respond(err, "development").value;
      r.DevResponse? && r.statusCode == err.statusCode.value && r.message == err.message && r.stack == err.stack
  {
  }

  /** No response at all outside the two known environments. */
  lemma UnknownEnvironmentSendsNothing(err: Err, nodeEnv: string)
    requires nodeEnv != "development" && nodeEnv != "production"
    ensures Respond(err, nodeEnv) == None
  {
  }

  lemma ProdCastError(err: Err)
    requires err.name == "CastError"
    ensures Respond(err, "production") ==
      Some(ProdResponse(400, "fail", "Invalid " + err.path + ": " + err.value))
  {
  }

  /** A duplicate key is reported with one fixed message, whatever the
      duplicated values were. */
  lemma ProdDuplicateKey(err: Err, other: seq<string>)
    requires err.code == Some(11000) && err.name != "CastError"
    ensures Respond(err, "production") == Some(ProdResponse(400, "fail", DuplicateMessage))
    ensures Respond(err.(keyValue := other), "production") == Respond(err, "production")
  {
  }

  lemma ProdValidationError(err: Err)
    requires err.name == "ValidationError" && err.code != Some(11000)
    ensures Respond(err, "production") ==
      Some(ProdResponse(400, "fail", "Invalid input data: " + JoinWith(err.fieldMessages, ". ")))
  {
  }

  /** A failed save reaches the client, in production, as a 400 listing the
      message of every failing path. */
  lemma ProdValidationFailure(model: string, fs: seq<ValidatorError>)
    ensures Respond(ValidationError(model, fs), "production") ==
      Some(ProdResponse(400, "fail", "Invalid input data: " + JoinWith(Messages(fs), ". ")))
  {
    ProdValidationError(ValidationError(model, fs));
  }

  /** Each failing path's message is among the messages shown. */
  lemma MessageShown(fs: seq<ValidatorError>, f: ValidatorError)
    requires f in fs
    ensures f.message in Messages(fs)
  {
    var i :| 0 <= i < |fs| && fs[i] == f;
    assert Messages(fs)[i] == f.message;
  }

  /** Both token errors are 401s, told apart by their messages. */
  lemma ProdTokenErrors(err: Err)
    requires err.code != Some(11000)
    requires err.name == "JsonWebTokenError" || err.name == "TokenExpiredError"
    ensures Respond(err, "production") ==
      Some(ProdResponse(401, "fail", if err.name == "JsonWebTokenError" then JwtMessage else ExpiredMessage))
    ensures JwtMessage != ExpiredMessage
  {
  }

  /** Errors no rule translates: an operational one keeps its status and
      message, any other becomes the generic 500. */
  lemma ProdUntranslated(err: Err)
    requires err.name !in {"CastError", "ValidationError", "JsonWebTokenError", "TokenExpiredError"}
    requires err.code != Some(11000)
    ensures var e := WithDefaults(err);
      Respond(err, "production") ==
        if err.isOperational then Some(ProdResponse(e.statusCode.value, e.status.value, err.message))
        else Some(ProdResponse(500, "error", GenericMessage))
  {
  }
}
