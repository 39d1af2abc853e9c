/**
 * backend/middlewares/error.middleware.js: `normalizeMongooseErrors`, which
 * turns the store's cast and validation failures into 400 `ApiError`s, and
 * `errorMiddleware`, which picks the status code and builds the response
 * body. Whether the error is an `ApiError` is decided BEFORE normalisation,
 * so a normalised store error is still answered as a non-`ApiError`: status
 * 500 (it has no numeric `status`), its new message, and no code or details.
 * `RespondIntended` is the handler with the decision taken after
 * normalisation instead.
 */
module ErrorMiddleware {
  import opened Wrappers
  import TaskModel
  import opened ApiErrors

  /** A store cast failure on an identifier. */
  predicate IsObjectIdCast(err: RawError)
  {
    err.name == "CastError" && err.kind == Some("ObjectId")
  }

  /** A store validation failure that carries its sub-errors. */
  predicate IsStoreValidation(err: RawError)
  {
    err.name == "ValidationError" && err.errors.Some?
  }

  /** One detail per store sub-error, in order: its path, its message and its validator kind as `type`. */
  function SubErrorDetails(subs: seq<TaskModel.FieldError>): (ds: seq<Detail>)
    ensures |ds| == |subs|
    ensures forall i :: 0 <= i < |subs| ==>
              ds[i].path == subs[i].path && ds[i].message == subs[i].message && ds[i].kind == Some(subs[i].kind)
  {
    seq(|subs|, i requires 0 <= i < |subs| => Detail(subs[i].path, subs[i].message, Some(subs[i].kind)))
  }

  /** `normalizeMongooseErrors(err)`: a 400 `ApiError` for the two store failures it knows, nothing otherwise. */
  function Normalize(err: RawError, trace: string): (r: Option<ApiError>)
    ensures r.Some? <==> IsObjectIdCast(err) || IsStoreValidation(err)
    ensures r.Some? ==> r.value.statusCode == 400 && r.value.isOperational && r.value.cause == Some(StoreCause(err))
    ensures IsObjectIdCast(err) ==>
              r.value.message == "Invalid id format" && r.value.code == Some("INVALID_ID")
              && r.value.details == Some([Detail(err.path, "Invalid ObjectId: " + err.value, None)])
    ensures !IsObjectIdCast(err) && IsStoreValidation(err) ==>
              r.value.message == "Model validation failed" && r.value.code == Some("MODEL_VALIDATION_ERROR")
              && r.value.details == Some(SubErrorDetails(err.errors.value))
  {
    if IsObjectIdCast(err) then
      Some(BadRequest(Some("Invalid id format"),
                      Options(None, Some([Detail(err.path, "Invalid ObjectId: " + err.value, None)]),
                              Some("INVALID_ID"), Some(StoreCause(err))),
                      trace))
    else if IsStoreValidation(err) then
      Some(BadRequest(Some("Model validation failed"),
                      Options(None, Some(SubErrorDetails(err.errors.value)),
                              Some("MODEL_VALIDATION_ERROR"), Some(StoreCause(err))),
                      trace))
    else None
  }

  /** The `error` block of a non-production response. */
  datatype ErrorInfo = ErrorInfo(name: string, isOperational: bool)

  /** The JSON body; an absent field is left out of the JSON. */
  datatype Payload = Payload(
    success: bool,
    message: string,
    code: Option<string>,
    details: Option<seq<Detail>>,
    stack: Option<string>,
    error: Option<ErrorInfo>)

  datatype Response = Response(status: int, payload: Payload)

  /** The error object after normalisation: the normalised `ApiError`, or the original error. */
  function Normalized(err: Thrown, trace: string): (r: Thrown)
    ensures err.Api? ==> r == err
    ensures err.Raw? && Normalize(err.raw, trace).Some? ==> r == Api(Normalize(err.raw, trace).value)
    ensures err.Raw? && Normalize(err.raw, trace).None? ==> r == err
  {
    match err
    case Api(_) => err
    case Raw(raw) => var n := Normalize(raw, trace); if n.Some? then Api(n.value) else err
  }

  function NameOf(err: Thrown): string
  {
    match err
    case Api(_) => ApiErrorName
    case Raw(raw) => raw.name
  }

  function StackOf(err: Thrown): Option<string>
  {
    match err
    case Api(api) => Some(api.stack)
    case Raw(raw) => raw.stack
  }

  function MessageOf(err: Thrown): string
  {
    match err
    case Api(api) => api.message
    case Raw(raw) => raw.message
  }

  /** A numeric `status` property; `ApiError`s have none (theirs is `statusCode`). */
  function StatusOf(err: Thrown): Option<int>
  {
    match err
    case Api(_) => None
    case Raw(raw) => raw.status
  }

  /**
   * The response `errorMiddleware` sends, decided on the original error's
   * kind: an `ApiError` speaks for itself; anything else, normalised or not,
   * gets the numeric `status` of the error as it stands after normalisation
   * (a normalised error has none, so 500), that error's message or the
   * generic one, no code or details, and counts as non-operational.
   */
  function Respond(err: Thrown, isProd: bool, trace: string): (res: Response)
    ensures !res.payload.success
    ensures err.Api? ==> res.status == err.api.statusCode && res.payload.message == err.api.message
                         && res.payload.details == err.api.details
                         && (res.payload.code.Some? <==> err.api.code.Some? && err.api.code.value != "")
                         && (res.payload.code.Some? ==> res.payload.code == err.api.code)
    ensures err.Raw? ==> res.payload.code.None? && res.payload.details.None?
    ensures err.Raw? && Normalize(err.raw, trace).None? ==>
              res.status == (if err.raw.status.Some? then err.raw.status.value else 500)
    ensures err.Raw? && Normalize(err.raw, trace).Some? ==> res.status == 500
    ensures err.Raw? ==> res.payload.message == (if MessageOf(Normalized(err, trace)) == "" then "Internal Server Error"
                                                 else MessageOf(Normalized(err, trace)))
    ensures res.payload.error.Some? <==> !isProd
    ensures isProd ==> res.payload.stack.None?
    ensures !isProd ==> res.payload.stack == StackOf(Normalized(err, trace))
                        && res.payload.error.value.name == NameOf(Normalized(err, trace))
    ensures !isProd && err.Raw? ==> !res.payload.error.value.isOperational
    ensures !isProd && err.Api? ==> res.payload.error.value.isOperational == err.api.isOperational
  {
    var final := Normalized(err, trace);
    var diagnostics := !isProd;
    match err
    case Api(api) =>
      Response(api.statusCode,
               Payload(false, api.message,
                       if api.code.Some? && api.code.value != "" then api.code else None,
                       api.details,
                       if diagnostics then StackOf(final) else None,
                       if diagnostics then Some(ErrorInfo(ApiErrorName, api.isOperational)) else None))
    case Raw(_) =>
      Response(if StatusOf(final).Some? then StatusOf(final).value else 500,
               Payload(false, if MessageOf(final) == "" then "Internal Server Error" else MessageOf(final),
                       None, None,
                       if diagnostics then StackOf(final) else None,
                       if diagnostics then Some(ErrorInfo(NameOf(final), false)) else None))
  }

  /** `errorMiddleware(err, req, res, next)`, step by step as written; `trace` is the stack a normalised error captures. */
  method HandleError(err: Thrown, isProd: bool, trace: string) returns (res: Response)
    ensures res == Respond(err, isProd, trace)
  {
    var current := err;
    var isApiError := current.Api?;
    if !isApiError {
      var normalized := Normalize(current.raw, trace);
      if normalized.Some? {
        current := Api(normalized.value);
      }
    }
    var statusCode := if isApiError then current.api.statusCode
                      else if StatusOf(current).Some? then StatusOf(current).value else 500;
    var message := if isApiError then current.api.message
                   else if MessageOf(current) != "" then MessageOf(current) else "Internal Server Error";
    var isOperational := if isApiError then current.api.isOperational else false;
    var payload := Payload(false, message, None, None, None, None);
    if isApiError && current.api.code.Some? && current.api.code.value != "" {
      payload := payload.(code := current.api.code);
    }
    if isApiError && current.api.details.Some? {
      payload := payload.(details := current.api.details);
    }
    if !isProd {
      payload := payload.(stack := StackOf(current));
      payload := payload.(error := Some(ErrorInfo(NameOf(current), isOperational)));
    }
    res := Response(statusCode, payload);
  }

  /**
   * As written, a store cast failure on an identifier is answered with 500,
   * not 400, although it is normalised to a 400 `INVALID_ID` error: the
   * message is the normalised one, and the code and details are dropped.
   * Even a numeric `status` on the original error is lost.
   */
  lemma CastErrorAnsweredAs500(err: RawError, isProd: bool, trace: string)
    requires IsObjectIdCast(err)
    ensures var res := Respond(Raw(err), isProd, trace);
            res.status == 500 && res.payload.message == "Invalid id format"
            && res.payload.code.None? && res.payload.details.None?
  {
  }

  /** The same holds for a store validation failure: 500, the normalised message, no code, no details. */
  lemma StoreValidationAnsweredAs500(err: RawError, isProd: bool, trace: string)
    requires IsStoreValidation(err) && !IsObjectIdCast(err)
    ensures var res := Respond(Raw(err), isProd, trace);
            res.status == 500 && res.payload.message == "Model validation failed"
            && res.payload.code.None? && res.payload.details.None?
  {
  }

  /** The handler with the `ApiError` test taken after normalisation, as the normaliser evidently intends. */
  function RespondIntended(err: Thrown, isProd: bool, trace: string): (res: Response)
    ensures !res.payload.success
    ensures res.payload.error.Some? <==> !isProd
  {
    var final := Normalized(err, trace);
    var diagnostics := !isProd;
    match final
    case Api(api) =>
      Response(api.statusCode,
               Payload(false, api.message,
                       if api.code.Some? && api.code.value != "" then api.code else None,
                       api.details,
                       if diagnostics then Some(api.stack) else None,
                       if diagnostics then Some(ErrorInfo(ApiErrorName, api.isOperational)) else None))
    case Raw(raw) =>
      Response(if raw.status.Some? then raw.status.value else 500,
               Payload(false, if raw.message == "" then "Internal Server Error" else raw.message,
                       None, None,
                       if diagnostics then raw.stack else None,
                       if diagnostics then Some(ErrorInfo(raw.name, false)) else None))
  }

  /** With the corrected handler a store cast failure is a 400 `INVALID_ID` answer with its single detail. */
  lemma IntendedCastErrorIs400(err: RawError, isProd: bool, trace: string)
    requires IsObjectIdCast(err)
    ensures var res := RespondIntended(Raw(err), isProd, trace);
            res.status == 400 && res.payload.code == Some("INVALID_ID")
            && res.payload.details == Some([Detail(err.path, "Invalid ObjectId: " + err.value, None)])
  {
  }

  /** With the corrected handler a store validation failure is a 400 `MODEL_VALIDATION_ERROR` answer with one detail per sub-error. */
  lemma IntendedStoreValidationIs400(err: RawError, isProd: bool, trace: string)
    requires IsStoreValidation(err) && !IsObjectIdCast(err)
    ensures var res := RespondIntended(Raw(err), isProd, trace);
            res.status == 400 && res.payload.code == Some("MODEL_VALIDATION_ERROR")
            && res.payload.details == Some(SubErrorDetails(err.errors.value))
  {
  }

  /** The correction changes nothing else: both handlers agree on every error the normaliser leaves alone. */
  lemma IntendedAgreesElsewhere(err: Thrown, isProd: bool, trace: string)
    requires err.Api? || Normalize(err.raw, trace).None?
    ensures RespondIntended(err, isProd, trace) == Respond(err, isProd, trace)
  {
  }

  /** A store document rejected by the Task schema, once thrown, normalises to one detail per failed field, in order. */
  lemma RejectedDocumentNormalises(input: TaskModel.TaskInput, id: string, createdAt: int,
                                   err: RawError, trace: string, i: int)
    requires TaskModel.CreateDocument(input, id, createdAt).Failure?
    requires err.name == "ValidationError"
    requires err.errors == Some(TaskModel.CreateDocument(input, id, createdAt).error)
    requires 0 <= i < |err.errors.value|
    ensures Normalize(err, trace).Some?
    ensures var d := Normalize(err, trace).value.details.value;
            |d| == |err.errors.value| && d[i].path == err.errors.value[i].path
            && d[i].message == err.errors.value[i].message && d[i].kind == Some(err.errors.value[i].kind)
  {
  }
}
