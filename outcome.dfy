/**
 * Outcome resolution: the callback index.js hands to `request` (lines 57-84).
 * Given what the HTTP client reports (a transport error, a response, a body)
 * it works out the status code, whether the call succeeded and which of the
 * caller's callbacks run, in order and with which arguments.
 */
module Outcome {
  import opened Prelude
  import opened Js
  import opened Request

  /** A response of the HTTP client; only its status code matters here (0 when it has none). */
  datatype Response = Response(statusCode: int)

  /** One invocation of a caller's callback, with the arguments it receives. */
  datatype Call =
    | Complete(error: JsValue, isSuccess: bool, response: Option<Response>, statusCode: int)
    | ErrorWithCause(cause: JsValue)                           // error(moduleError)
    | ErrorWithStatus(response: Option<Response>, statusCode: int) // error(undefined, response, statusCode)
    | Success(data: JsValue, response: Option<Response>, statusCode: int)

  /** The status the adapter reports: the response's code, or 404 when there is no response or its code is 0. */
  function EffectiveStatus(response: Option<Response>): (s: int)
    ensures s != 0
    ensures response.Some? && response.value.statusCode != 0 ==> s == response.value.statusCode
    ensures response.None? || response.value.statusCode == 0 ==> s == 404
  {
    if response.Some? && response.value.statusCode != 0 then response.value.statusCode else 404
  }

  /** The error the callbacks see: the transport error when truthy, else the configuration error. */
  function ModuleError(error: JsValue, optionsError: JsValue): (e: JsValue)
    ensures Truthy(error) ==> e == error
    ensures !Truthy(error) ==> e == optionsError
  {
    Or(error, optionsError)
  }

  predicate InvokesError(calls: seq<Call>) {
    exists i :: 0 <= i < |calls| && (calls[i].ErrorWithCause? || calls[i].ErrorWithStatus?)
  }

  predicate InvokesSuccess(calls: seq<Call>) {
    exists i :: 0 <= i < |calls| && calls[i].Success?
  }

  /**
   * The callbacks run when `request` reports `error`, `response` and `body`:
   * `complete` first, when supplied; then `error(moduleError)` when there is an
   * error and an `error` callback; otherwise `success` for a status below 400,
   * or `error(undefined, response, status)` for any other status.
   */
  function Settle(o: Options, optionsError: JsValue, error: JsValue, response: Option<Response>,
                  body: JsValue, parse: string -> JsValue): (calls: seq<Call>)
    ensures var s, e := EffectiveStatus(response), ModuleError(error, optionsError);
      && |calls| <= 1 + (if o.hasComplete then 1 else 0)
      && (o.hasComplete <==> |calls| > 0 && calls[0].Complete?)
      && (o.hasComplete ==> calls[0] == Complete(e, s < 400, response, s))
      && (forall i :: 0 < i < |calls| ==> !calls[i].Complete?)
      && (ErrorWithCause(e) in calls <==> Truthy(e) && o.hasError)
      && (Success(JsonOf(body, parse), response, s) in calls <==>
            !(Truthy(e) && o.hasError) && s < 400 && o.hasSuccess)
      && (ErrorWithStatus(response, s) in calls <==>
            !(Truthy(e) && o.hasError) && 400 <= s && o.hasError)
      && (forall i :: 0 <= i < |calls| ==>
            calls[i] in [Complete(e, s < 400, response, s), ErrorWithCause(e),
                         Success(JsonOf(body, parse), response, s), ErrorWithStatus(response, s)])
      && !(InvokesSuccess(calls) && InvokesError(calls))
  {
    var s := EffectiveStatus(response);
    var e := ModuleError(error, optionsError);
    var first := if o.hasComplete then [Complete(e, s < 400, response, s)] else [];
    var last :=
      if Truthy(e) && o.hasError then [ErrorWithCause(e)]
      else if s < 400 then (if o.hasSuccess then [Success(JsonOf(body, parse), response, s)] else [])
      else if o.hasError then [ErrorWithStatus(response, s)]
      else [];
    first + last
  }

  /**
   * A transport failure without a response: `complete` sees the error, no
   * success and status 404, and `error` receives the error alone.
   */
  lemma TransportFailure(o: Options, optionsError: JsValue, error: JsValue, body: JsValue, parse: string -> JsValue)
    requires Truthy(error) && o.hasError
    ensures Settle(o, optionsError, error, None, body, parse)
            == (if o.hasComplete then [Complete(error, false, None, 404)] else []) + [ErrorWithCause(error)]
  {
  }

  /**
   * An HTTP status of 400 or more with no transport error: `complete` sees no
   * error and no success, `error` receives (undefined, response, status).
   */
  lemma HttpErrorStatus(o: Options, response: Response, body: JsValue, parse: string -> JsValue)
    requires o.hasError && response.statusCode >= 400
    ensures Settle(o, ConfigurationError(o), Null, Some(response), body, parse)
            == (if o.hasComplete then [Complete(Undefined, false, Some(response), response.statusCode)] else [])
               + [ErrorWithStatus(Some(response), response.statusCode)]
  {
  }

  /**
   * A response below 400 with no transport error: `complete` sees success and
   * `success` receives the body, parsed when it is a string.
   */
  lemma SuccessfulResponse(o: Options, response: Response, body: JsValue, parse: string -> JsValue)
    requires o.hasError && o.hasSuccess && 0 < response.statusCode < 400
    ensures Settle(o, ConfigurationError(o), Null, Some(response), body, parse)
            == (if o.hasComplete then [Complete(Undefined, true, Some(response), response.statusCode)] else [])
               + [Success(JsonOf(body, parse), Some(response), response.statusCode)]
  {
  }

  /**
   * The configuration error reaches `complete` only: whatever `request`
   * reports, a call `error(e)` passes the transport error.
   */
  lemma ConfigurationErrorOnlyReachesComplete(o: Options, error: JsValue, response: Option<Response>,
                                              body: JsValue, parse: string -> JsValue)
    ensures var calls := Settle(o, ConfigurationError(o), error, response, body, parse);
      forall i :: 0 <= i < |calls| && calls[i].ErrorWithCause? ==> calls[i].cause == error
  {
  }

  /**
   * Without an `error` callback no error callback runs, `success` still runs
   * for a status below 400 (even after a transport error), and `complete`
   * sees the transport error or else the configuration error.
   */
  lemma NoErrorCallback(o: Options, error: JsValue, response: Option<Response>,
                        body: JsValue, parse: string -> JsValue)
    requires !o.hasError
    ensures var calls := Settle(o, ConfigurationError(o), error, response, body, parse);
      && !InvokesError(calls)
      && (InvokesSuccess(calls) <==> o.hasSuccess && EffectiveStatus(response) < 400)
      && (o.hasComplete ==>
            calls[0].error == if Truthy(error) then error else ErrorObject(MissingErrorCallback))
  {
  }
}
