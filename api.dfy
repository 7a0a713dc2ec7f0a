/** The two response shapes every handler produces (`ApiResponse`, `ApiError`), what a
    handler's run ends in, and the status code the client then sees. */
module Api {
  import opened Wrappers

  /** `new ApiResponse(statusCode, data, message)`: the JSON body of a reply. */
  datatype ApiResponse<+D> = ApiResponse(statusCode: int, data: D, message: string, success: bool)

  /** The one value `ApiError.data` ever holds. */
  datatype JsNull = JsNull

  /** `new ApiError(statusCode, message, errors)`; the stack trace is not modelled. */
  datatype ApiError = ApiError(statusCode: int, data: JsNull, message: string, success: bool, errors: seq<string>)

  /** The `ApiResponse` constructor: status and data kept as given, `message` defaulting to
      "Success", and `success` exactly when the status is below 400. */
  function NewApiResponse<D>(statusCode: int, data: D, message: string := "Success"): (r: ApiResponse<D>)
    ensures r.statusCode == statusCode && r.data == data && r.message == message
    ensures r.success <==> statusCode < 400
  {
    ApiResponse(statusCode, data, message, statusCode < 400)
  }

  /** The `ApiError` constructor: status kept as given, `data` null, `success` false,
      `message` defaulting to "Something went wrong" and `errors` to the empty list. */
  function NewApiError(statusCode: int, message: string := "Something went wrong", errors: seq<string> := []): (e: ApiError)
    ensures e.statusCode == statusCode && e.message == message && e.errors == errors
    ensures e.data == JsNull && !e.success
  {
    ApiError(statusCode, JsNull, message, false, errors)
  }

  /** Errors other than `ApiError` that a handler can throw. */
  datatype JsError =
    | TypeError(message: string)        // reading a property of undefined
    | ReferenceError(message: string)   // an identifier that is not bound, or read before its initializer
    | ValidationError(message: string)  // a Mongoose schema check failing on save
    | DuplicateKeyError(message: string) // a unique index rejecting an insert or update

  /** The cookies a reply sets or clears (`httpOnly`, `secure`). */
  datatype Cookies = NoCookies | SetTokenCookies(accessToken: string, refreshToken: string) | ClearTokenCookies

  /** The `TypeError` messages of reading `req.admin._id` (or `req.student._id`,
      `req.trainer._id`) when no guard attached a caller, and `req.file.path` when no file
      was uploaded. */
  const NoCaller: string := "Cannot read properties of undefined (reading '_id')"
  const NoFile: string := "Cannot read properties of undefined (reading 'path')"

  /** How a handler's run ends: a JSON reply, a thrown `ApiError`, or another thrown error.
      Thrown errors reach Express's default handler through `asyncHandler`. */
  datatype Outcome<+D> =
    | Respond(response: ApiResponse<D>, cookies: Cookies)
    | Reject(error: ApiError)
    | Throw(thrown: JsError)

  /** `a || b` on two optional strings: `a` unless it is missing or empty. */
  function FirstTruthy(a: Option<string>, b: Option<string>): (r: Option<string>)
    ensures a.Some? && a.value != "" ==> r == a
    ensures (a.None? || a.value == "") ==> r == b
  {
    if a.Some? && a.value != "" then a else b
  }

  function Reply<D>(statusCode: int, data: D, message: string, cookies: Cookies := NoCookies): Outcome<D>
  {
    Respond(NewApiResponse(statusCode, data, message), cookies)
  }

  function Fail<D>(statusCode: int, message: string): Outcome<D>
  {
    Reject(NewApiError(statusCode, message))
  }

  /** The HTTP status the client receives. The application installs no error middleware,
      so Express's default handler answers a thrown `ApiError` with its `statusCode` and
      any other thrown error with 500. */
  function HttpStatus<D>(o: Outcome<D>): (s: int)
    ensures o.Respond? ==> s == o.response.statusCode
    ensures o.Reject? && 400 <= o.error.statusCode < 600 ==> s == o.error.statusCode
    ensures o.Throw? ==> s == 500
  {
    match o
    case Respond(r, _) => r.statusCode
    case Reject(e) => if 400 <= e.statusCode < 600 then e.statusCode else 500
    case Throw(_) => 500
  }
}
