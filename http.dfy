/**
 * What a `fetch` can come back with, as an explicit parameter of every operation
 * that would issue one, and the JavaScript error values the console inspects.
 */
module Http {
  import opened Wrappers
  import JsText

  /** The constructor of a thrown `Error` object; only `TypeError` is told apart. */
  datatype ErrorName = PlainError | TypeError

  /** A thrown value: an `Error` object with its message, or anything else. */
  datatype JsError = Error(name: ErrorName, message: string) | NonError

  /** The JSON an error response carried, or a body that did not parse as JSON. */
  datatype ErrorBody = JsonBody(detail: Option<string>, message: Option<string>) | Unparsable

  /**
   * The outcome of one request: the response arrived (`ok`, status code, status text,
   * the error body if it was not ok, the parsed payload if it was), or the request threw.
   */
  datatype Outcome<T> =
    | Completed(ok: bool, status: nat, statusText: string, errorBody: ErrorBody, payload: T)
    | Thrown(error: JsError)

  /** A settled promise: fulfilled with a value or rejected with a thrown value. */
  datatype Result<T> = Ok(value: T) | Err(error: JsError)

  /** JavaScript truthiness of an optional string field: present and non-empty. */
  predicate Truthy(s: Option<string>) {
    s.Some? && s.value != ""
  }

  const FailedToFetch: string := "Failed to fetch"
  const UnknownError: string := "未知错误"

  /**
   * The message shown to the user for a caught error: `networkHint` for a `TypeError`
   * whose message mentions "Failed to fetch", the message of any other `Error`, and
   * the fixed "unknown error" text for anything else that was thrown.
   */
  function FriendlyMessage(e: JsError, networkHint: string): (r: string)
    ensures e.NonError? ==> r == UnknownError
    ensures e.Error? && e.name == TypeError && JsText.Includes(e.message, FailedToFetch) ==> r == networkHint
    ensures e.Error? && e.name == PlainError ==> r == e.message
    ensures e.Error? && !(e.name == TypeError && JsText.Includes(e.message, FailedToFetch)) ==> r == e.message
    ensures r == networkHint || r == UnknownError || (e.Error? && r == e.message)
  {
    match e
    case Error(name, message) =>
      if name == TypeError && JsText.Includes(message, FailedToFetch) then networkHint else message
    case NonError => UnknownError
  }

  /** `error instanceof Error ? error.message : '未知错误'`, the text logged or displayed for a caught value. */
  function MessageOrUnknown(e: JsError): (r: string)
    ensures e.Error? ==> r == e.message
    ensures e.NonError? ==> r == UnknownError
  {
    match e
    case Error(_, message) => message
    case NonError => UnknownError
  }
}
