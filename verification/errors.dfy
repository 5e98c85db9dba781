/** The error classes of the service (`ApiError` and its two subclasses) and
    the other values a JavaScript `throw` can carry. */
module Errors {
  import opened Wrappers

  /** The class an error object was built by; it decides `instanceof`. */
  datatype ErrorClass = PlainError | ApiErrorClass | NotFoundErrorClass | BadRequestErrorClass

  /** An `Error` object as the middleware sees it (the `AppError` interface):
      a name, a message and an optional numeric `statusCode`. */
  datatype AppError = AppError(cls: ErrorClass, name: string, message: string, statusCode: Option<int>)
  {
    /** `err instanceof ApiError`: true for ApiError and both subclasses. */
    predicate IsApiError() { cls != PlainError }

    /** `err instanceof NotFoundError` */
    predicate IsNotFoundError() { cls == NotFoundErrorClass }

    /** `err instanceof BadRequestError` */
    predicate IsBadRequestError() { cls == BadRequestErrorClass }
  }

  /** Anything that can be thrown: an `Error` object, or some other value
      for which `instanceof Error` is false and which carries neither a
      `message` nor a `statusCode` property (a string, a number). */
  datatype Thrown = Raised(err: AppError) | NonError

  /** `new ApiError(message, statusCode)` */
  function ApiError(message: string, statusCode: int): (e: AppError)
    ensures e.IsApiError() && !e.IsNotFoundError() && !e.IsBadRequestError()
    ensures e.name == "ApiError"
    ensures e.message == message && e.statusCode == Some(statusCode)
  {
    AppError(ApiErrorClass, "ApiError", message, Some(statusCode))
  }

  const DefaultNotFoundMessage := "Resource not found"
  const DefaultBadRequestMessage := "Bad request"

  /** `new NotFoundError(message?)`: the default message applies only when
      the argument is omitted, not when it is the empty string. */
  function NotFoundError(message: Option<string>): (e: AppError)
    ensures e.IsApiError() && e.IsNotFoundError() && e.name == "NotFoundError"
    ensures e.statusCode == Some(404)
    ensures e.message == if message.Some? then message.value else DefaultNotFoundMessage
  {
    AppError(NotFoundErrorClass, "NotFoundError",
             if message.Some? then message.value else DefaultNotFoundMessage, Some(404))
  }

  /** `new BadRequestError(message?)` */
  function BadRequestError(message: Option<string>): (e: AppError)
    ensures e.IsApiError() && e.IsBadRequestError() && e.name == "BadRequestError"
    ensures e.statusCode == Some(400)
    ensures e.message == if message.Some? then message.value else DefaultBadRequestMessage
  {
    AppError(BadRequestErrorClass, "BadRequestError",
             if message.Some? then message.value else DefaultBadRequestMessage, Some(400))
  }
}
