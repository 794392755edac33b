/**
 * The message envelopes: what the server sends, what a handler does, and how
 * a parsed inbound value is classified as a request, a notification or an
 * invalid request, with the JavaScript truthiness tests of `processMessage`.
 */
module Envelope {
  import opened Wrappers
  import opened JsValue
  import opened ErrorTaxonomy

  /** What a registered handler does when called with the request's params. */
  datatype Outcome = Returns(value: Value) | Throws(error: Value)

  /** A registered handler: `(params) => result`, which may throw. */
  type Handler = Value -> Outcome

  /** The structured messages the server sends; `JSON.stringify` is not modelled. */
  datatype Message =
    | Success(id: Value, result: Value)
    | Failure(id: Value, error: ErrorObject)
    | Broadcast(name: string, params: Value)

  /** A value with a non-empty string under "method". */
  predicate NamesMethod(v: Value) {
    v.Obj? && "method" in v.fields && v.fields["method"].Str? && v.fields["method"].s != ""
  }

  /** A value with a non-zero number under "id". */
  predicate CarriesCallId(v: Value) {
    v.Obj? && "id" in v.fields && v.fields["id"].Num? && v.fields["id"].n != 0
  }

  /** How `processMessage` reads a parse result. */
  datatype Kind =
    | Unparsable
    | Invalid(request: Value)
    | Notice(name: string, params: Value)
    | Call(request: Value, name: string, id: int, params: Value)

  /**
   * The tests `request && request.method && typeof request.method === 'string'`
   * and `request.id && typeof request.id === 'number'`. The method must be a
   * non-empty string, so a parsed null, number, string or array is invalid; the
   * id must be a non-zero number, so `id: 0`, a string id or no id at all make
   * the message a notification.
   */
  function Classify(parsed: Option<Value>): (k: Kind)
    ensures k.Unparsable? <==> parsed.None?
    ensures k.Invalid? <==> parsed.Some? && !NamesMethod(parsed.value)
    ensures k.Notice? <==> parsed.Some? && NamesMethod(parsed.value) && !CarriesCallId(parsed.value)
    ensures k.Call? <==> parsed.Some? && NamesMethod(parsed.value) && CarriesCallId(parsed.value)
    ensures k.Invalid? ==> k.request == parsed.value
    ensures k.Notice? ==> parsed.value.fields["method"] == Str(k.name)
                          && k.params == Get(parsed.value, "params")
    ensures k.Call? ==> k.request == parsed.value
                        && parsed.value.fields["method"] == Str(k.name)
                        && parsed.value.fields["id"] == Num(k.id)
                        && k.params == Get(parsed.value, "params")
  {
    match parsed
    case None => Unparsable
    case Some(request) =>
      var name := Get(request, "method");
      if Truthy(request) && Truthy(name) && name.Str? then
        var id := Get(request, "id");
        if Truthy(id) && id.Num? then Call(request, name.s, id.n, Get(request, "params"))
        else Notice(name.s, Get(request, "params"))
      else Invalid(request)
  }

  /**
   * `request && request.id || -1`: the id of an error response. Any truthy id
   * is echoed, whatever its type; otherwise the id is -1, so the result is
   * never falsy.
   */
  function ResponseId(request: Value): (id: Value)
    ensures Truthy(id)
    ensures id == Num(-1) || (request.Obj? && "id" in request.fields && id == request.fields["id"])
    ensures request.Obj? && "id" in request.fields && Truthy(request.fields["id"]) ==> id == request.fields["id"]
  {
    if Truthy(request) && Truthy(Get(request, "id")) then Get(request, "id") else Num(-1)
  }

  /** `request && request.method`: the method name quoted in an error message. */
  function MethodOf(request: Value): Value {
    if Truthy(request) then Get(request, "method") else request
  }

  /**
   * `error && error.message || error`: the data of an error response. It is
   * the thrown value's truthy `message` if it has one, otherwise the thrown
   * value itself, so it is truthy exactly when the thrown value is.
   */
  function ErrorData(error: Value): (data: Value)
    ensures data == error || (error.Obj? && "message" in error.fields && data == error.fields["message"])
    ensures Truthy(data) <==> Truthy(error)
    ensures error.Obj? && "message" in error.fields && Truthy(error.fields["message"])
            ==> data == error.fields["message"]
  {
    var first := if Truthy(error) then Get(error, "message") else error;
    if Truthy(first) then first else error
  }

  /**
   * `result || {}`: the result of a success response. A truthy handler value
   * is sent as it is, a falsy one becomes `{}`; the result is never falsy, so
   * no response carries `result: undefined`.
   */
  function SuccessResult(v: Value): (r: Value)
    ensures Truthy(r)
    ensures Truthy(v) ==> r == v
    ensures r != v ==> r == Obj(map[])
  {
    if Truthy(v) then v else Obj(map[])
  }

  /** The error response `_sendError(socket, request, code, error)` sends. */
  function ErrorReply(request: Value, code: int, error: Value): Message {
    Failure(ResponseId(request), ErrorFromCode(code, ErrorData(error), MethodOf(request)))
  }
}
