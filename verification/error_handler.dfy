/** The final Express error middleware: turns whatever reached `next(err)`
    into one JSON error response. */
module ErrorHandler {
  import opened Wrappers
  import opened Errors

  /** The JSON body `{ status, message, stack }`; `stack` is `undefined`
      (None) outside development. */
  datatype ErrorBody = ErrorBody(status: string, message: string, stack: Option<string>)

  /** The status code and body the handler emits. */
  datatype ErrorResponse = ErrorResponse(statusCode: int, body: ErrorBody)

  const DefaultMessage := "Internal server error"

  /** `err.statusCode || 500`: an absent or zero status code falls back to 500.
      A thrown non-Error value, as modelled, has no `statusCode` property. */
  function StatusOf(err: Thrown): int
  {
    if err.Raised? && err.err.statusCode.Some? && err.err.statusCode.value != 0
    then err.err.statusCode.value
    else 500
  }

  /** `err.message || 'Internal server error'` */
  function MessageOf(err: Thrown): string
  {
    if err.Raised? && err.err.message != "" then err.err.message else DefaultMessage
  }

  /** `errorHandler(err, req, res, next)`. The stack trace the runtime captured
      for `err` is the parameter `stack`; `nodeEnv` is `process.env.NODE_ENV`. */
  function HandleError(err: Thrown, stack: string, nodeEnv: Option<string>): (r: ErrorResponse)
    ensures r.body.status == "error"
    ensures r.statusCode != 0
    ensures r.statusCode != 500 <==>
              err.Raised? && err.err.statusCode.Some? && err.err.statusCode.value !in {0, 500}
    ensures r.statusCode != 500 ==> Some(r.statusCode) == err.err.statusCode
    ensures r.body.message != ""
    ensures r.body.message != DefaultMessage ==> err.Raised? && r.body.message == err.err.message
    ensures err.Raised? && err.err.message != "" ==> r.body.message == err.err.message
    ensures r.body.stack.Some? <==> err.Raised? && nodeEnv == Some("development")
    ensures r.body.stack.Some? ==> r.body.stack.value == stack
  {
    ErrorResponse(StatusOf(err),
                  ErrorBody("error", MessageOf(err),
                            if err.Raised? && nodeEnv == Some("development") then Some(stack) else None))
  }

  /** Both subclasses are ApiErrors with a fixed non-zero code, so the handler
      answers 404 and 400 for them (never the 500 default), whatever message
      they carry; an ApiError answers with its own non-zero code. */
  lemma ClassStatuses(message: Option<string>, m: string, code: int, stack: string, nodeEnv: Option<string>)
    ensures HandleError(Raised(NotFoundError(message)), stack, nodeEnv).statusCode == 404
    ensures HandleError(Raised(BadRequestError(message)), stack, nodeEnv).statusCode == 400
    ensures code != 0 ==> HandleError(Raised(ApiError(m, code)), stack, nodeEnv).statusCode == code
    ensures code == 0 ==> HandleError(Raised(ApiError(m, code)), stack, nodeEnv).statusCode == 500
  {
  }

  /** An error with an empty message, and anything thrown that is not an
      Error, is reported with the generic message; an error built with an
      explicitly empty message keeps its own status (a BadRequestError stays
      400). */
  lemma EmptyMessageFallsBack(err: Thrown, stack: string, nodeEnv: Option<string>)
    requires err.NonError? || err.err.message == ""
    ensures HandleError(err, stack, nodeEnv).body.message == DefaultMessage
    ensures err == Raised(BadRequestError(Some(""))) ==> HandleError(err, stack, nodeEnv).statusCode == 400
  {
  }
}
