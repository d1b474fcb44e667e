/** The two error classes of the client, the other things a request can fail
    with, and the settled-or-pending outcome that stands in for a promise. */
module Errors {
  import opened Types

  /** Everything a request, a middleware or an error handler can reject with.
      `kind` is the error's `type` property. */
  datatype Error =
    | RequestError(message: string, request: Options, kind: string)
    | ResponseError(message: string, response: TaroResult, data: Value, request: Options, kind: string)
      /** `new Error(text)`: the abort marker and the missing-response error */
    | PlainError(message: string)
      /** the native request's failure, carrying its `errMsg` */
    | TransportFailure(errMsg: string)
      /** any other value thrown by a middleware or an error handler */
    | Thrown(value: Value)
  {
    /** The `name` property of an `Error` object; the native failure record
        and arbitrary thrown values have none. */
    function Name(): (n: string)
      requires RequestError? || ResponseError? || PlainError?
      ensures n == "Error" <==> PlainError?
    {
      match this
      case RequestError(_, _, _) => "RequestError"
      case ResponseError(_, _, _, _, _) => "ResponseError"
      case PlainError(_) => "Error"
    }
  }

  /** How a promise settles: fulfilled with a value or rejected with an error. */
  datatype Outcome<+T> = Ok(value: T) | Err(error: Error)

  /** A promise seen from outside: it never settles, or it settles at time
      `at` (milliseconds after the request starts) with `outcome`. */
  datatype Settlement<+T> = Pending | Settled(at: nat, outcome: Outcome<T>)

  /** `new RequestError(text, request, type)`, whose `type` defaults to
      `'RequestError'`. */
  function NewRequestError(text: string, request: Options, kind: string := "RequestError"): (e: Error)
    ensures e.RequestError? && e.message == text && e.request == request && e.kind == kind
    ensures e.Name() == "RequestError"
  {
    RequestError(text, request, kind)
  }

  /** `new ResponseError(response, text, data, request, type)`: the message
      falls back to the native result's `errMsg` when `text` is empty, and
      `type` defaults to `'ResponseError'`. */
  function NewResponseError(response: TaroResult, text: string, data: Value, request: Options,
                            kind: string := "ResponseError"): (e: Error)
    ensures e.ResponseError? && e.response == response && e.data == data
    ensures e.Name() == "ResponseError"
    ensures e.request == request && e.kind == kind
    ensures text != "" ==> e.message == text
    ensures text == "" ==> e.message == response.errMsg
  {
    ResponseError(if text != "" then text else response.errMsg, response, data, request, kind)
  }
}
