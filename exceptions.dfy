/**
 * The API's exception handler: the framework's base handler builds a
 * response, and a handler chosen by the exception's class name may reshape
 * its data in place.
 */
module Exceptions {
  import opened Wrappers
  import opened Values

  /** A response object: the base handler builds it; `data` is reassigned in place. */
  class Response {
    var status: int
    var data: Value

    constructor (status: int, data: Value)
      ensures this.status == status && this.data == data
    {
      this.status := status;
      this.data := data;
    }
  }

  /** An exception as the dispatch sees it: only its class name matters. */
  datatype Exception = Exception(className: string)

  /** The custom handlers there are. */
  datatype Handler = GenericErrorHandler

  /** The `handlers` table: class name to custom handler. */
  const Handlers: map<string, Handler> := map["ValidationError" := GenericErrorHandler]

  /**
   * Raised when a custom handler is given no response: `response.data` on
   * None. The base handler returns None for exceptions it does not know,
   * such as a non-framework class that is also named `ValidationError`.
   */
  datatype HandlerError = AttributeError

  /** The data `_handle_generic_error` puts in place of the original. */
  function ErrorsEnvelope(data: Value): Value
  {
    Dict(map["errors" := data])
  }

  /** The original data inside an envelope, if `v` is one. */
  function ErrorsOf(v: Value): Option<Value>
  {
    if v.Dict? && "errors" in v.entries then Some(v.entries["errors"]) else None
  }

  /** The envelope keeps the original data whole, under its only key. */
  lemma EnvelopeRoundTrip(data: Value)
    ensures ErrorsOf(ErrorsEnvelope(data)) == Some(data)
    ensures ErrorsEnvelope(data).Dict? && ErrorsEnvelope(data).entries.Keys == {"errors"}
  {
  }

  /** The custom handler for a class name: one exists only for `ValidationError`. */
  function HandlerFor(className: string): (h: Option<Handler>)
    ensures h.Some? <==> className == "ValidationError"
    ensures h.Some? ==> h.value == GenericErrorHandler
  {
    if className in Handlers then Some(Handlers[className]) else None
  }

  /**
   * `_handle_generic_error`: wraps the response's data as `{"errors": data}`
   * in place and returns the same response; the status is kept.
   */
  method HandleGenericError(exc: Exception, response: Response?) returns (r: Result<Response, HandlerError>)
    modifies response
    ensures response == null ==> r == Failure(AttributeError)
    ensures response != null ==> r == Success(response)
    ensures response != null ==> response.data == ErrorsEnvelope(old(response.data))
    ensures response != null ==> response.status == old(response.status)
  {
    if response == null {
      return Failure(AttributeError);
    }
    response.data := ErrorsEnvelope(response.data);
    r := Success(response);
  }

  /**
   * `core_exception_handler`: `base` is what the framework's
   * `exception_handler` returned for `exc`. A `ValidationError`, by class
   * name alone, goes to the generic handler; anything else gets `base`
   * back untouched.
   */
  method CoreExceptionHandler(exc: Exception, base: Response?) returns (r: Result<Response?, HandlerError>)
    modifies base
    ensures HandlerFor(exc.className).None? ==> r == Success(base)
    ensures HandlerFor(exc.className).None? && base != null ==>
      base.data == old(base.data) && base.status == old(base.status)
    ensures HandlerFor(exc.className).Some? && base == null ==> r == Failure(AttributeError)
    ensures HandlerFor(exc.className).Some? && base != null ==>
      r == Success(base) && base.data == ErrorsEnvelope(old(base.data)) && base.status == old(base.status)
  {
    var handler := HandlerFor(exc.className);
    match handler
    case None =>
      r := Success(base);
    case Some(GenericErrorHandler) =>
      var handled := HandleGenericError(exc, base);
      match handled
      case Failure(e) =>
        r := Failure(e);
      case Success(response) =>
        r := Success(response);
  }
}
