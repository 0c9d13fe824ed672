/** Shared vocabulary for the three stores: the JavaScript values a user record
    holds, the two shapes a rejected promise takes in the application (an
    `Error` object or a bare string) and the settled outcome of a promise. */
module Js {

  datatype Option<+T> = None | Some(value: T)

  /** A JSON-like JavaScript value as held by a user record. `Obj` is a plain
      object; key order is not modelled. */
  datatype Value =
    | Null
    | Bool(b: bool)
    | Num(n: int)
    | Str(s: string)
    | Arr(items: seq<Value>)
    | Obj(fields: map<string, Value>)

  /** What a promise rejects with: `new Error(message)` or a bare string
      (`Promise.reject("...")`). Only an `Error` has a `.message`. */
  datatype Rejection = ErrorObject(message: string) | Bare(reason: string)

  datatype Settled<+T> = Resolved(value: T) | Rejected(error: Rejection)

  /** An opaque response body (the JSON the weather API returns, passed
      through unmodified). */
  datatype Payload = Payload(body: string)

  /** `error.message || ''` */
  function MessageOrEmpty(e: Rejection): string
  {
    match e
    case ErrorObject(message) => message
    case Bare(_) => ""
  }

  /** `${error.message || error}`: the message when it is non-empty, otherwise
      the string conversion of the rejection itself (`String(new Error(""))`
      is "Error"; a bare string converts to itself). */
  function MessageOrSelf(e: Rejection): string
  {
    match e
    case ErrorObject(message) => if message != "" then message else "Error"
    case Bare(reason) => reason
  }
}
