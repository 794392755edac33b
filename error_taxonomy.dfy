/**
 * The JSON-RPC 2.0 error codes the server produces (section 5.1 of the
 * JSON-RPC 2.0 Specification), the message text `_errorFromCode` derives from
 * each, and the defaulting done by the `MessageError` constructor.
 */
module ErrorTaxonomy {
  import opened Wrappers
  import opened JsValue

  const ParseError: int := -32700
  const InvalidRequest: int := -32600
  const MethodNotFound: int := -32601
  const InternalError: int := -32603

  const ParseErrorMessage: string := "ParseError: invalid JSON received"
  const InvalidRequestMessage: string := "InvalidRequest: JSON sent is not a valid request object"
  const MethodNotFoundPrefix: string := "MethodNotFound: '"
  const MethodNotFoundSuffix: string := "' wasn't found"
  const InternalErrorPrefix: string := "InternalError: Internal Error when calling '"
  const InternalErrorSuffix: string := "'"

  /** The `error` member of an error response; `data` is `Undefined` when absent. */
  datatype ErrorObject = ErrorObject(code: int, message: string, data: Value)

  predicate IsProtocolCode(code: int) {
    code == ParseError || code == InvalidRequest || code == MethodNotFound || code == InternalError
  }

  /**
   * Recovers the code from a message text by its leading words. It inverts
   * `ErrorFromCode`: every protocol code has a message no other code shares.
   */
  function CodeOfMessage(message: string): Option<int> {
    if message == ParseErrorMessage then Some(ParseError)
    else if message == InvalidRequestMessage then Some(InvalidRequest)
    else if MethodNotFoundPrefix <= message then Some(MethodNotFound)
    else if InternalErrorPrefix <= message then Some(InternalError)
    else None
  }

  /** The method name quoted in a MethodNotFound or InternalError message. */
  function MentionedMethod(message: string): Option<string> {
    if |MethodNotFoundPrefix| + |MethodNotFoundSuffix| <= |message|
       && MethodNotFoundPrefix <= message
       && message[|message| - |MethodNotFoundSuffix|..] == MethodNotFoundSuffix
    then Some(message[|MethodNotFoundPrefix|..|message| - |MethodNotFoundSuffix|])
    else if |InternalErrorPrefix| + |InternalErrorSuffix| <= |message|
       && InternalErrorPrefix <= message
       && message[|message| - |InternalErrorSuffix|..] == InternalErrorSuffix
    then Some(message[|InternalErrorPrefix|..|message| - |InternalErrorSuffix|])
    else None
  }

  /**
   * `_errorFromCode(code, data, method)`: a pure switch on the code. The code
   * and data pass through unchanged; an unknown code gets an empty message;
   * each protocol code gets a message that identifies it.
   */
  function ErrorFromCode(code: int, data: Value, name: Value): (r: ErrorObject)
    ensures r.code == code && r.data == data
    ensures !IsProtocolCode(code) <==> r.message == ""
  {
    var message :=
      if code == InternalError then InternalErrorPrefix + Display(name) + InternalErrorSuffix
      else if code == MethodNotFound then MethodNotFoundPrefix + Display(name) + MethodNotFoundSuffix
      else if code == InvalidRequest then InvalidRequestMessage
      else if code == ParseError then ParseErrorMessage
      else "";
    ErrorObject(code, message, data)
  }

  /** Each protocol code's message is recognised as that code's, whatever the method and data. */
  lemma MessageNamesCode(code: int, data: Value, name: Value)
    requires IsProtocolCode(code)
    ensures CodeOfMessage(ErrorFromCode(code, data, name).message) == Some(code)
  {
    var message := ErrorFromCode(code, data, name).message;
    if code == InternalError {
      SplitAt(InternalErrorPrefix, Display(name), InternalErrorSuffix);
      assert message[0] == InternalErrorPrefix[0] && message[2] == InternalErrorPrefix[2];
    } else if code == MethodNotFound {
      SplitAt(MethodNotFoundPrefix, Display(name), MethodNotFoundSuffix);
      assert message[0] == MethodNotFoundPrefix[0];
    }
  }

  /** Distinct protocol codes never share a message, whatever the method and data. */
  lemma MessageIdentifiesCode(c1: int, c2: int, d1: Value, d2: Value, m1: Value, m2: Value)
    requires IsProtocolCode(c1) && IsProtocolCode(c2)
    requires ErrorFromCode(c1, d1, m1).message == ErrorFromCode(c2, d2, m2).message
    ensures c1 == c2
  {
    MessageNamesCode(c1, d1, m1);
    MessageNamesCode(c2, d2, m2);
  }

  lemma {:induction false} SplitAt(p: string, m: string, q: string)
    ensures (p + m + q)[|p|..|p + m + q| - |q|] == m
    ensures p <= p + m + q
    ensures (p + m + q)[|p + m + q| - |q|..] == q
  {
    var s := p + m + q;
    assert s[|p|..|s| - |q|] == m by {
      forall i | 0 <= i < |m| ensures s[|p|..|s| - |q|][i] == m[i] { }
    }
    assert s[|s| - |q|..] == q by {
      forall i | 0 <= i < |q| ensures s[|s| - |q|..][i] == q[i] { }
    }
  }

  /**
   * The MethodNotFound and InternalError messages quote the method name in
   * full: it can be read back from the message.
   */
  lemma MessageQuotesMethod(code: int, data: Value, name: string)
    requires code == MethodNotFound || code == InternalError
    ensures MentionedMethod(ErrorFromCode(code, data, Str(name)).message) == Some(name)
  {
    var msg := ErrorFromCode(code, data, Str(name)).message;
    if code == MethodNotFound {
      SplitAt(MethodNotFoundPrefix, name, MethodNotFoundSuffix);
    } else {
      SplitAt(InternalErrorPrefix, name, InternalErrorSuffix);
      assert !(MethodNotFoundPrefix <= msg) by { assert msg[0] == InternalErrorPrefix[0]; }
    }
  }

  /** The fields a `MessageError` ends up with. */
  datatype MessageErrorFields = MessageErrorFields(message: string, code: Value, data: Value)

  /**
   * `new MessageError(error)`: the message comes from `error.message` (empty
   * when absent), `code || 0` and `data || null` replace falsy values.
   * Reading a property of `null` or `undefined` throws, modelled as `None`.
   */
  function NewMessageError(error: Value): (r: Option<MessageErrorFields>)
    ensures r.None? <==> error == Null || error == Undefined
    ensures r.Some? ==> r.value.code == Num(0) || (Truthy(r.value.code) && r.value.code == Get(error, "code"))
    ensures r.Some? ==> r.value.data == Null || (Truthy(r.value.data) && r.value.data == Get(error, "data"))
    ensures r.Some? && Truthy(Get(error, "code")) ==> r.value.code == Get(error, "code")
    ensures r.Some? && Truthy(Get(error, "data")) ==> r.value.data == Get(error, "data")
    ensures r.Some? && Get(error, "message") == Undefined ==> r.value.message == ""
    ensures r.Some? && Get(error, "message").Str? ==> r.value.message == Get(error, "message").s
  {
    if error == Null || error == Undefined then None
    else
      var message := Get(error, "message");
      var code := Get(error, "code");
      var data := Get(error, "data");
      Some(MessageErrorFields(
        if message == Undefined then "" else Display(message),
        if Truthy(code) then code else Num(0),
        if Truthy(data) then data else Null))
  }

  /** An error object as the plain JavaScript object `{code, message, data}`. */
  function ErrorValue(e: ErrorObject): Value {
    Obj(map["code" := Num(e.code), "message" := Str(e.message), "data" := e.data])
  }

  /**
   * Wrapping a protocol error in a `MessageError` keeps its code and message,
   * and its data unless that data is falsy, which becomes `null`.
   */
  lemma MessageErrorKeepsProtocolError(e: ErrorObject)
    requires IsProtocolCode(e.code)
    ensures NewMessageError(ErrorValue(e))
         == Some(MessageErrorFields(e.message, Num(e.code), if Truthy(e.data) then e.data else Null))
  {
  }
}
