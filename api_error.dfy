/**
 * The application error of backend/utils/ApiError.js and the other error
 * shapes the backend handles. An `ApiError` is a value: every field is set
 * once, when it is built, and never changed.
 */
module ApiErrors {
  import opened Wrappers
  import TaskModel
  import TasksValidator

  /** One entry of an error's `details` list; `kind` is the optional `type` key. */
  datatype Detail = Detail(path: string, message: string, kind: Option<string>)

  /**
   * Any thrown error that is not an `ApiError`, by the properties the error
   * handler reads: `kind`, `path` and `value` (already rendered as text)
   * for a store cast failure, `errors` (the sub-errors in key order) for a
   * store validation failure, and a numeric `status` when there is one.
   * An empty `message` stands for a missing one.
   */
  datatype RawError = RawError(
    name: string,
    message: string,
    kind: Option<string>,
    path: string,
    value: string,
    errors: Option<seq<TaskModel.FieldError>>,
    status: Option<int>,
    stack: Option<string>)

  /** The underlying error an `ApiError` wraps. */
  datatype Cause =
    | SchemaCause(violations: seq<TasksValidator.Violation>)
    | StoreCause(error: RawError)

  /** The optional constructor settings; each may be absent. */
  datatype Options = Options(
    isOperational: Option<bool>,
    details: Option<seq<Detail>>,
    code: Option<string>,
    cause: Option<Cause>)

  const NoOptions: Options := Options(None, None, None, None)

  /** The `name` every `ApiError` carries. */
  const ApiErrorName: string := "ApiError"

  /** `stack` is the trace the runtime captures at construction; it is handed in. */
  datatype ApiError = ApiError(
    statusCode: int,
    message: string,
    isOperational: bool,
    details: Option<seq<Detail>>,
    code: Option<string>,
    cause: Option<Cause>,
    stack: string)

  /** Anything the backend can throw: an `ApiError` instance or another error. */
  datatype Thrown = Api(api: ApiError) | Raw(raw: RawError)

  /**
   * `new ApiError(statusCode, message, options)`: `isOperational` is true
   * unless the options say otherwise; details, code and cause are kept
   * exactly as given.
   */
  function NewApiError(statusCode: int, message: string, options: Options, trace: string): (e: ApiError)
    ensures e.statusCode == statusCode && e.message == message && e.stack == trace
    ensures e.isOperational <==> options.isOperational != Some(false)
    ensures e.details == options.details && e.code == options.code && e.cause == options.cause
  {
    ApiError(
      statusCode,
      message,
      if options.isOperational.Some? then options.isOperational.value else true,
      options.details,
      options.code,
      options.cause,
      trace)
  }

  /** `ApiError.badRequest(message = "Bad Request", options)`. */
  function BadRequest(message: Option<string>, options: Options, trace: string): (e: ApiError)
    ensures e.statusCode == 400
    ensures e.message == (if message.Some? then message.value else "Bad Request")
    ensures e == NewApiError(400, e.message, options, trace)
  {
    NewApiError(400, if message.Some? then message.value else "Bad Request", options, trace)
  }

  /** `ApiError.notFound(message = "Not Found", options)`. */
  function NotFound(message: Option<string>, options: Options, trace: string): (e: ApiError)
    ensures e.statusCode == 404
    ensures e.message == (if message.Some? then message.value else "Not Found")
    ensures e == NewApiError(404, e.message, options, trace)
  {
    NewApiError(404, if message.Some? then message.value else "Not Found", options, trace)
  }

  /** `ApiError.internalError(message = "Internal Server Error", options)`. */
  function InternalError(message: Option<string>, options: Options, trace: string): (e: ApiError)
    ensures e.statusCode == 500
    ensures e.message == (if message.Some? then message.value else "Internal Server Error")
    ensures e == NewApiError(500, e.message, options, trace)
  {
    NewApiError(500, if message.Some? then message.value else "Internal Server Error", options, trace)
  }

  /** The three factories differ only in status code and default message: without options each error is operational and carries no code, details or cause. */
  lemma FactoriesWithoutOptions(trace: string)
    ensures var b := BadRequest(None, NoOptions, trace);
            b.isOperational && b.code.None? && b.details.None? && b.cause.None? && b.message == "Bad Request"
    ensures var n := NotFound(None, NoOptions, trace);
            n.isOperational && n.code.None? && n.details.None? && n.cause.None? && n.message == "Not Found"
    ensures var i := InternalError(None, NoOptions, trace);
            i.isOperational && i.code.None? && i.details.None? && i.cause.None? && i.message == "Internal Server Error"
  {
  }
}
