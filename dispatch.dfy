/**
 * The trace one inbound message leaves behind (`processMessage` with the
 * `_logMessage`, `_send` and `_sendError` it calls), as functions of the
 * registry, the logging flags, the parse result and the socket; and what the
 * peer, the console and local listeners observe as a consequence.
 */
module Dispatch {
  import opened Wrappers
  import opened JsValue
  import opened ErrorTaxonomy
  import opened Envelope
  import opened Effects

  /** `_logMessage`: a console line when console logging is on, then an event when emit logging is on. */
  function LogTrace(log: LogOpts, entry: Logged): seq<Effect> {
    (if On(log.logConsole) then [ConsoleLine(ConsolePrefix(entry), entry)] else [])
    + (if On(log.logEmit) then [Emitted(EventName(entry), Text(entry))] else [])
  }

  /** `_send`: log the message, then hand it to the socket; a message the socket throws on is not received. */
  function SendTrace(log: LogOpts, s: Socket, m: Message): seq<Effect> {
    LogTrace(log, Sending(m)) + (if s.throwsOn(m).None? then [Delivered(s.handle, m)] else [])
  }

  /**
   * The message `processMessage` hands to `_send` first: the reply to a
   * request, or the error for an unparsable or invalid input. A notification
   * gets none.
   */
  function FirstAttempt(methods: map<string, Handler>, parsed: Option<Value>): (r: Option<Message>)
    ensures r.None? <==> Classify(parsed).Notice?
    ensures r.Some? && r.value.Success? ==> Classify(parsed).Call?
  {
    match Classify(parsed)
    case Unparsable => Some(ErrorReply(Undefined, ParseError, Undefined))
    case Invalid(request) => Some(ErrorReply(request, InvalidRequest, Undefined))
    case Notice(_, _) => None
    case Call(request, name, id, params) =>
      if name !in methods then Some(ErrorReply(request, MethodNotFound, Undefined))
      else match methods[name](params)
        case Throws(e) => Some(ErrorReply(request, InternalError, e))
        case Returns(v) => Some(Success(Num(id), SuccessResult(v)))
  }

  /**
   * The second `_send`: the success `_send` sits inside the handler's `try`,
   * so a socket that throws on the success reply is sent an InternalError
   * reply carrying what it threw. No other path sends twice.
   */
  function Retry(methods: map<string, Handler>, parsed: Option<Value>, s: Socket): (r: Option<Message>)
    ensures r.Some? <==> FirstAttempt(methods, parsed).Some? && FirstAttempt(methods, parsed).value.Success?
                         && s.throwsOn(FirstAttempt(methods, parsed).value).Some?
  {
    match FirstAttempt(methods, parsed)
    case None => None
    case Some(m) =>
      if m.Success? && s.throwsOn(m).Some?
      then Some(ErrorReply(Classify(parsed).request, InternalError, s.throwsOn(m).value))
      else None
  }

  /** The `_send` of the retry, if there is one. */
  function RetryTrace(log: LogOpts, s: Socket, retry: Option<Message>): seq<Effect> {
    if retry.Some? then SendTrace(log, s, retry.value) else []
  }

  /**
   * `processMessage` after the 'receive' log: a notification is emitted;
   * anything else is answered with one `_send`, and the retry when there is one.
   * A failure of the retry is swallowed by `_sendError`.
   */
  function DispatchTrace(methods: map<string, Handler>, log: LogOpts, parsed: Option<Value>, s: Socket): seq<Effect> {
    match FirstAttempt(methods, parsed)
    case None => [Emitted(Classify(parsed).name, Params(Classify(parsed).params))]
    case Some(m) => SendTrace(log, s, m) + RetryTrace(log, s, Retry(methods, parsed, s))
  }

  /** `processMessage(raw, socket)`, where `parsed` is what `JSON.parse(raw)` gives (`None`: it threw). */
  function ProcessTrace(methods: map<string, Handler>, log: LogOpts, raw: string, parsed: Option<Value>, s: Socket): seq<Effect> {
    LogTrace(log, Received(raw)) + DispatchTrace(methods, log, parsed, s)
  }

  // ---------------------------------------------------------------------------
  // Channels of the building blocks

  lemma LogTraceChannels(log: LogOpts, entry: Logged)
    ensures Select(LogTrace(log, entry), SocketSends) == []
    ensures Select(LogTrace(log, entry), NotificationEvents) == []
    ensures Select(LogTrace(log, entry), ConsoleSink)
         == if On(log.logConsole) then [ConsoleLine(ConsolePrefix(entry), entry)] else []
  {
    var a := if On(log.logConsole) then [ConsoleLine(ConsolePrefix(entry), entry)] else [];
    var b := if On(log.logEmit) then [Emitted(EventName(entry), Text(entry))] else [];
    SelectAppend(a, b, SocketSends);
    SelectAppend(a, b, NotificationEvents);
    SelectAppend(a, b, ConsoleSink);
  }

  lemma SendTraceChannels(log: LogOpts, s: Socket, m: Message)
    ensures Select(SendTrace(log, s, m), SocketSends)
         == if s.throwsOn(m).None? then [Delivered(s.handle, m)] else []
    ensures Select(SendTrace(log, s, m), NotificationEvents) == []
    ensures Select(SendTrace(log, s, m), ConsoleSink)
         == if On(log.logConsole) then [ConsoleLine("Server >", Sending(m))] else []
  {
    var d := if s.throwsOn(m).None? then [Delivered(s.handle, m)] else [];
    LogTraceChannels(log, Sending(m));
    SelectAppend(LogTrace(log, Sending(m)), d, SocketSends);
    SelectAppend(LogTrace(log, Sending(m)), d, NotificationEvents);
    SelectAppend(LogTrace(log, Sending(m)), d, ConsoleSink);
  }

  /**
   * The message the peer receives, if any: the first attempt when the socket
   * accepts it, otherwise the retry when there is one and the socket accepts it.
   */
  function Reply(methods: map<string, Handler>, parsed: Option<Value>, s: Socket): Option<Message> {
    match FirstAttempt(methods, parsed)
    case None => None
    case Some(m) =>
      if s.throwsOn(m).None? then Some(m)
      else match Retry(methods, parsed, s)
        case None => None
        case Some(r) => if s.throwsOn(r).None? then Some(r) else None
  }

  /** The socket entries of the reply. */
  function Replies(methods: map<string, Handler>, parsed: Option<Value>, s: Socket): seq<Effect> {
    match Reply(methods, parsed, s)
    case None => []
    case Some(m) => [Delivered(s.handle, m)]
  }

  /** The notification events a parse result leads to. */
  function Notices(parsed: Option<Value>): seq<Effect> {
    if Classify(parsed).Notice?
    then [Emitted(Classify(parsed).name, Params(Classify(parsed).params))]
    else []
  }

  /** The console line `_logMessage` writes for an outbound attempt, if there is one. */
  function Shown(attempt: Option<Message>): seq<Effect> {
    if attempt.Some? then [ConsoleLine("Server >", Sending(attempt.value))] else []
  }

  lemma RetryChannels(log: LogOpts, s: Socket, retry: Option<Message>)
    ensures Select(RetryTrace(log, s, retry), SocketSends)
         == if retry.Some? && s.throwsOn(retry.value).None? then [Delivered(s.handle, retry.value)] else []
    ensures Select(RetryTrace(log, s, retry), NotificationEvents) == []
    ensures Select(RetryTrace(log, s, retry), ConsoleSink) == if On(log.logConsole) then Shown(retry) else []
  {
    if retry.Some? {
      SendTraceChannels(log, s, retry.value);
    }
  }

  /** The channels of `processMessage` after the 'receive' log. */
  lemma DispatchChannels(methods: map<string, Handler>, log: LogOpts, parsed: Option<Value>, s: Socket)
    ensures Select(DispatchTrace(methods, log, parsed, s), SocketSends) == Replies(methods, parsed, s)
    ensures Select(DispatchTrace(methods, log, parsed, s), NotificationEvents) == Notices(parsed)
    ensures Select(DispatchTrace(methods, log, parsed, s), ConsoleSink)
         == if On(log.logConsole) then Shown(FirstAttempt(methods, parsed)) + Shown(Retry(methods, parsed, s)) else []
  {
    var d := DispatchTrace(methods, log, parsed, s);
    match FirstAttempt(methods, parsed)
    case None =>
      var e := Emitted(Classify(parsed).name, Params(Classify(parsed).params));
      assert d == [e];
      assert Select([e], SocketSends) == [] && Select([e], ConsoleSink) == [];
      assert Select([e], NotificationEvents) == [e];
    case Some(m) =>
      var retry := Retry(methods, parsed, s);
      assert d == SendTrace(log, s, m) + RetryTrace(log, s, retry);
      SendTraceChannels(log, s, m);
      RetryChannels(log, s, retry);
      SelectAppend(SendTrace(log, s, m), RetryTrace(log, s, retry), SocketSends);
      SelectAppend(SendTrace(log, s, m), RetryTrace(log, s, retry), NotificationEvents);
      SelectAppend(SendTrace(log, s, m), RetryTrace(log, s, retry), ConsoleSink);
  }

  /**
   * The channels of one inbound message, whatever the logging flags and the
   * socket: the peer receives `Reply`, the only notification event is the
   * notification's own, and the console shows the inbound text, then every
   * outbound attempt in order.
   */
  lemma ProcessChannels(methods: map<string, Handler>, log: LogOpts, raw: string, parsed: Option<Value>, s: Socket)
    ensures Select(ProcessTrace(methods, log, raw, parsed, s), SocketSends) == Replies(methods, parsed, s)
    ensures Select(ProcessTrace(methods, log, raw, parsed, s), NotificationEvents) == Notices(parsed)
    ensures Select(ProcessTrace(methods, log, raw, parsed, s), ConsoleSink)
         == if On(log.logConsole)
            then [ConsoleLine("Server <", Received(raw))]
                 + Shown(FirstAttempt(methods, parsed)) + Shown(Retry(methods, parsed, s))
            else []
  {
    var d := DispatchTrace(methods, log, parsed, s);
    DispatchChannels(methods, log, parsed, s);
    LogTraceChannels(log, Received(raw));
    SelectAppend(LogTrace(log, Received(raw)), d, SocketSends);
    SelectAppend(LogTrace(log, Received(raw)), d, NotificationEvents);
    SelectAppend(LogTrace(log, Received(raw)), d, ConsoleSink);
    AppendAssoc([ConsoleLine("Server <", Received(raw))], Shown(FirstAttempt(methods, parsed)), Shown(Retry(methods, parsed, s)));
  }

  // ---------------------------------------------------------------------------
  // One inbound message, case by case

  /** Unparsable text gets exactly one reply: id -1, code -32700, the fixed ParseError message. */
  lemma ParseFailureReply(methods: map<string, Handler>, log: LogOpts, raw: string, s: Socket)
    ensures var reply := Failure(Num(-1), ErrorObject(-32700, "ParseError: invalid JSON received", Undefined));
      Select(ProcessTrace(methods, log, raw, None, s), SocketSends)
        == if s.throwsOn(reply).None? then [Delivered(s.handle, reply)] else []
    ensures Select(ProcessTrace(methods, log, raw, None, s), NotificationEvents) == []
  {
    assert FirstAttempt(methods, None) == Some(Failure(Num(-1), ErrorObject(ParseError, ParseErrorMessage, Undefined)));
    ProcessChannels(methods, log, raw, None, s);
  }

  /**
   * A parsed value without a non-empty string method gets one InvalidRequest
   * reply, echoing its id when that id is truthy and using -1 otherwise.
   */
  lemma InvalidRequestReply(methods: map<string, Handler>, log: LogOpts, raw: string, v: Value, s: Socket)
    requires !NamesMethod(v)
    ensures var reply := Failure(
        if v.Obj? && "id" in v.fields && Truthy(v.fields["id"]) then v.fields["id"] else Num(-1),
        ErrorObject(-32600, "InvalidRequest: JSON sent is not a valid request object", Undefined));
      Select(ProcessTrace(methods, log, raw, Some(v), s), SocketSends)
        == if s.throwsOn(reply).None? then [Delivered(s.handle, reply)] else []
    ensures Select(ProcessTrace(methods, log, raw, Some(v), s), NotificationEvents) == []
  {
    var id := if v.Obj? && "id" in v.fields && Truthy(v.fields["id"]) then v.fields["id"] else Num(-1);
    assert FirstAttempt(methods, Some(v)) == Some(Failure(id, ErrorObject(InvalidRequest, InvalidRequestMessage, Undefined)));
    ProcessChannels(methods, log, raw, Some(v), s);
  }

  /**
   * A request (non-empty method, non-zero numeric id) for a method that was
   * never exposed gets one MethodNotFound reply naming the method and echoing
   * the id; no handler runs.
   */
  lemma MethodNotFoundReply(methods: map<string, Handler>, log: LogOpts, raw: string, v: Value, s: Socket)
    requires NamesMethod(v) && CarriesCallId(v)
    requires v.fields["method"].s !in methods
    ensures var reply := Failure(v.fields["id"],
        ErrorObject(-32601, "MethodNotFound: '" + v.fields["method"].s + "' wasn't found", Undefined));
      Select(ProcessTrace(methods, log, raw, Some(v), s), SocketSends)
        == if s.throwsOn(reply).None? then [Delivered(s.handle, reply)] else []
    ensures Select(ProcessTrace(methods, log, raw, Some(v), s), NotificationEvents) == []
  {
    assert FirstAttempt(methods, Some(v)) == Some(Failure(v.fields["id"],
      ErrorObject(MethodNotFound, MethodNotFoundPrefix + v.fields["method"].s + MethodNotFoundSuffix, Undefined)));
    ProcessChannels(methods, log, raw, Some(v), s);
  }

  /**
   * A request whose handler returns `r` gets exactly one success reply with the
   * request's id and `r`, or `{}` when `r` is falsy, when the socket accepts it
   * (`UnsendableSuccess` covers a socket that throws on it).
   */
  lemma HandlerReturnsReply(methods: map<string, Handler>, log: LogOpts, raw: string, v: Value, s: Socket, r: Value)
    requires NamesMethod(v) && CarriesCallId(v)
    requires v.fields["method"].s in methods
    requires methods[v.fields["method"].s](Get(v, "params")) == Returns(r)
    requires s.throwsOn(Success(v.fields["id"], if Truthy(r) then r else Obj(map[]))).None?
    ensures Select(ProcessTrace(methods, log, raw, Some(v), s), SocketSends)
         == [Delivered(s.handle, Success(v.fields["id"], if Truthy(r) then r else Obj(map[])))]
    ensures Select(ProcessTrace(methods, log, raw, Some(v), s), NotificationEvents) == []
  {
    assert FirstAttempt(methods, Some(v)) == Some(Success(v.fields["id"], SuccessResult(r)));
    ProcessChannels(methods, log, raw, Some(v), s);
  }

  /**
   * A request whose handler throws `e` gets one InternalError reply naming the
   * method, with `e.message` as data when truthy and `e` itself otherwise.
   */
  lemma HandlerThrowsReply(methods: map<string, Handler>, log: LogOpts, raw: string, v: Value, s: Socket, e: Value)
    requires NamesMethod(v) && CarriesCallId(v)
    requires v.fields["method"].s in methods
    requires methods[v.fields["method"].s](Get(v, "params")) == Throws(e)
    ensures var reply := Failure(v.fields["id"], ErrorObject(-32603,
        "InternalError: Internal Error when calling '" + v.fields["method"].s + "'",
        if e.Obj? && "message" in e.fields && Truthy(e.fields["message"]) then e.fields["message"] else e));
      Select(ProcessTrace(methods, log, raw, Some(v), s), SocketSends)
        == if s.throwsOn(reply).None? then [Delivered(s.handle, reply)] else []
    ensures Select(ProcessTrace(methods, log, raw, Some(v), s), NotificationEvents) == []
  {
    assert FirstAttempt(methods, Some(v)) == Some(Failure(v.fields["id"], ErrorObject(InternalError,
      InternalErrorPrefix + v.fields["method"].s + InternalErrorSuffix, ErrorData(e))));
    ProcessChannels(methods, log, raw, Some(v), s);
  }

  /**
   * When the socket throws on the success reply, the server sends an
   * InternalError reply carrying the socket's error instead; the peer receives
   * that reply exactly when the socket accepts it, and the console shows both
   * attempts after the inbound text.
   */
  lemma UnsendableSuccess(methods: map<string, Handler>, log: LogOpts, raw: string, v: Value, s: Socket, r: Value)
    requires NamesMethod(v) && CarriesCallId(v)
    requires v.fields["method"].s in methods
    requires methods[v.fields["method"].s](Get(v, "params")) == Returns(r)
    requires s.throwsOn(Success(v.fields["id"], SuccessResult(r))).Some?
    ensures var ok := Success(v.fields["id"], SuccessResult(r));
      var fallback := Failure(v.fields["id"], ErrorObject(-32603,
        "InternalError: Internal Error when calling '" + v.fields["method"].s + "'",
        ErrorData(s.throwsOn(ok).value)));
      && Select(ProcessTrace(methods, log, raw, Some(v), s), SocketSends)
           == (if s.throwsOn(fallback).None? then [Delivered(s.handle, fallback)] else [])
      && Select(ProcessTrace(methods, log, raw, Some(v), s), ConsoleSink)
           == if On(log.logConsole)
              then [ConsoleLine("Server <", Received(raw)),
                    ConsoleLine("Server >", Sending(ok)), ConsoleLine("Server >", Sending(fallback))]
              else []
  {
    var ok := Success(v.fields["id"], SuccessResult(r));
    var fallback := Failure(v.fields["id"], ErrorObject(InternalError,
      InternalErrorPrefix + v.fields["method"].s + InternalErrorSuffix, ErrorData(s.throwsOn(ok).value)));
    assert FirstAttempt(methods, Some(v)) == Some(ok);
    assert ErrorReply(v, InternalError, s.throwsOn(ok).value) == fallback;
    assert Retry(methods, Some(v), s) == Some(fallback);
    ProcessChannels(methods, log, raw, Some(v), s);
    assert Shown(Some(ok)) == [ConsoleLine("Server >", Sending(ok))];
    assert Shown(Some(fallback)) == [ConsoleLine("Server >", Sending(fallback))];
  }

  /**
   * A message with a non-empty method and no usable id (absent, zero, or not
   * a number) is a notification: nothing is sent, exactly one event named
   * after the method is emitted with the params, and the registry plays no part.
   */
  lemma NotificationReply(methods: map<string, Handler>, log: LogOpts, raw: string, v: Value, s: Socket)
    requires NamesMethod(v) && !CarriesCallId(v)
    ensures Select(ProcessTrace(methods, log, raw, Some(v), s), SocketSends) == []
    ensures Select(ProcessTrace(methods, log, raw, Some(v), s), NotificationEvents)
         == [Emitted(v.fields["method"].s, Params(Get(v, "params")))]
    ensures ProcessTrace(methods, log, raw, Some(v), s) == ProcessTrace(map[], log, raw, Some(v), s)
  {
    ProcessChannels(methods, log, raw, Some(v), s);
  }

  /** `id: 0` is falsy, so a message carrying it is a notification even for an exposed method. */
  lemma ZeroIdIsNotification(methods: map<string, Handler>, log: LogOpts, raw: string, name: string, params: Value, s: Socket)
    requires name != "" && name in methods
    ensures var v := Obj(map["method" := Str(name), "params" := params, "id" := Num(0)]);
      Select(ProcessTrace(methods, log, raw, Some(v), s), SocketSends) == []
      && Select(ProcessTrace(methods, log, raw, Some(v), s), NotificationEvents) == [Emitted(name, Params(params))]
  {
    var v := Obj(map["method" := Str(name), "params" := params, "id" := Num(0)]);
    NotificationReply(methods, log, raw, v, s);
  }

  // ---------------------------------------------------------------------------
  // One inbound message, whatever it is

  /** Whatever arrives, at most one message reaches the peer, and only on the socket it came from. */
  lemma AtMostOneReply(methods: map<string, Handler>, log: LogOpts, raw: string, parsed: Option<Value>, s: Socket)
    ensures |Select(ProcessTrace(methods, log, raw, parsed, s), SocketSends)| <= 1
    ensures forall e :: e in Select(ProcessTrace(methods, log, raw, parsed, s), SocketSends)
              ==> e.Delivered? && e.socket == s.handle
  {
    ProcessChannels(methods, log, raw, parsed, s);
  }

  /**
   * Logging only observes: what reaches the socket and which notifications
   * are emitted do not depend on the logging flags.
   */
  lemma LoggingTransparent(methods: map<string, Handler>, log1: LogOpts, log2: LogOpts, raw: string, parsed: Option<Value>, s: Socket)
    ensures Select(ProcessTrace(methods, log1, raw, parsed, s), SocketSends)
         == Select(ProcessTrace(methods, log2, raw, parsed, s), SocketSends)
    ensures Select(ProcessTrace(methods, log1, raw, parsed, s), NotificationEvents)
         == Select(ProcessTrace(methods, log2, raw, parsed, s), NotificationEvents)
  {
    ProcessChannels(methods, log1, raw, parsed, s);
    ProcessChannels(methods, log2, raw, parsed, s);
  }

  /**
   * With console logging on, the console starts with the inbound text tagged
   * '<' and shows every message the peer receives tagged '>'. With console
   * logging off it shows nothing.
   */
  lemma ConsoleMirrorsTraffic(methods: map<string, Handler>, log: LogOpts, raw: string, parsed: Option<Value>, s: Socket)
    ensures var t := ProcessTrace(methods, log, raw, parsed, s);
      var shown := Select(t, ConsoleSink);
      if On(log.logConsole)
      then |shown| >= 1 && shown[0] == ConsoleLine("Server <", Received(raw))
           && forall e :: e in Select(t, SocketSends) ==> e.Delivered? && ConsoleLine("Server >", Sending(e.msg)) in shown[1..]
      else shown == []
  {
    ProcessChannels(methods, log, raw, parsed, s);
    ReplyWasAttempted(methods, parsed, s);
    if On(log.logConsole) {
      var first, retry := Shown(FirstAttempt(methods, parsed)), Shown(Retry(methods, parsed, s));
      AppendAssoc([ConsoleLine("Server <", Received(raw))], first, retry);
      DropFirst(ConsoleLine("Server <", Received(raw)), first + retry);
    }
  }

  lemma DropFirst(e: Effect, rest: seq<Effect>)
    ensures ([e] + rest)[0] == e && ([e] + rest)[1..] == rest
  {
  }

  /** The message the peer receives is one of the attempts. */
  lemma ReplyWasAttempted(methods: map<string, Handler>, parsed: Option<Value>, s: Socket)
    ensures forall e :: e in Replies(methods, parsed, s) ==>
      e.Delivered? && ConsoleLine("Server >", Sending(e.msg)) in Shown(FirstAttempt(methods, parsed)) + Shown(Retry(methods, parsed, s))
  {
    var first, retry := FirstAttempt(methods, parsed), Retry(methods, parsed, s);
    match Reply(methods, parsed, s)
    case None =>
    case Some(m) =>
      assert m == first.value || (retry.Some? && m == retry.value);
      assert ConsoleLine("Server >", Sending(m)) in Shown(first) + Shown(retry);
  }

  /** A socket that throws on every message receives nothing, whatever arrives. */
  lemma NothingDeliveredWhenSocketThrows(methods: map<string, Handler>, log: LogOpts, raw: string, parsed: Option<Value>, s: Socket)
    requires forall m :: s.throwsOn(m).Some?
    ensures Select(ProcessTrace(methods, log, raw, parsed, s), SocketSends) == []
  {
    ProcessChannels(methods, log, raw, parsed, s);
  }

  // ---------------------------------------------------------------------------
  // The 'send' log comes right before the socket receives the message

  /**
   * Every message handed to a socket is immediately preceded by its own 'send'
   * log entries: the console line and the emitted event the flags call for.
   */
  ghost predicate LoggedBeforeSent(log: LogOpts, t: seq<Effect>) {
    forall k :: 0 <= k < |t| && t[k].Delivered? ==> EndsBefore(t, k, LogTrace(log, Sending(t[k].msg)))
  }

  /** `l` occurs in `t` immediately before index `k`. */
  ghost predicate EndsBefore(t: seq<Effect>, k: int, l: seq<Effect>) {
    |l| <= k <= |t| && t[k - |l|..k] == l
  }

  /** An occurrence inside either part of a concatenation is an occurrence in the whole. */
  lemma EndsBeforeAppend(a: seq<Effect>, b: seq<Effect>, k: nat, l: seq<Effect>)
    requires k < |a| ==> EndsBefore(a, k, l)
    requires k >= |a| ==> EndsBefore(b, k - |a|, l)
    ensures EndsBefore(a + b, k, l)
  {
    var t := a + b;
    if k < |a| {
      assert t[k - |l|..k] == a[k - |l|..k];
    } else {
      assert t[k - |l|..k] == b[k - |a| - |l|..k - |a|];
    }
  }

  lemma {:induction false} LoggedBeforeSentAppend(log: LogOpts, a: seq<Effect>, b: seq<Effect>)
    requires LoggedBeforeSent(log, a) && LoggedBeforeSent(log, b)
    ensures LoggedBeforeSent(log, a + b)
  {
    var t := a + b;
    forall k | 0 <= k < |t| && t[k].Delivered?
      ensures EndsBefore(t, k, LogTrace(log, Sending(t[k].msg)))
    {
      var l := LogTrace(log, Sending(t[k].msg));
      if k < |a| {
        assert t[k] == a[k];
      } else {
        assert t[k] == b[k - |a|];
      }
      EndsBeforeAppend(a, b, k, l);
    }
  }

  lemma SendTraceLogged(log: LogOpts, s: Socket, m: Message)
    ensures LoggedBeforeSent(log, SendTrace(log, s, m))
  {
    var l := LogTrace(log, Sending(m));
    var t := SendTrace(log, s, m);
    forall k | 0 <= k < |t| && t[k].Delivered?
      ensures EndsBefore(t, k, LogTrace(log, Sending(t[k].msg)))
    {
      assert k == |l|;
      assert t[k] == Delivered(s.handle, m);
      assert t[..|l|] == l;
    }
  }

  lemma LogTraceLogged(log: LogOpts, entry: Logged)
    ensures LoggedBeforeSent(log, LogTrace(log, entry))
  {
  }

  /** The dispatch is an event, or one or two `_send`s, so it logs before it sends. */
  lemma DispatchLogged(methods: map<string, Handler>, log: LogOpts, parsed: Option<Value>, s: Socket)
    ensures LoggedBeforeSent(log, DispatchTrace(methods, log, parsed, s))
  {
    match FirstAttempt(methods, parsed)
    case None =>
    case Some(m) =>
      var retry := Retry(methods, parsed, s);
      SendTraceLogged(log, s, m);
      if retry.Some? {
        SendTraceLogged(log, s, retry.value);
      }
      LoggedBeforeSentAppend(log, SendTrace(log, s, m), RetryTrace(log, s, retry));
  }

  /** For every inbound message, each reply is preceded by its 'send' log. */
  lemma ProcessLoggedBeforeSent(methods: map<string, Handler>, log: LogOpts, raw: string, parsed: Option<Value>, s: Socket)
    ensures LoggedBeforeSent(log, ProcessTrace(methods, log, raw, parsed, s))
  {
    LogTraceLogged(log, Received(raw));
    DispatchLogged(methods, log, parsed, s);
    LoggedBeforeSentAppend(log, LogTrace(log, Received(raw)), DispatchTrace(methods, log, parsed, s));
  }

  // ---------------------------------------------------------------------------
  // Registry and dispatch together

  /**
   * After `expose("echo", p => p)`, the request
   * `{"method":"echo","params":{"a":1},"id":1}` is answered with exactly
   * `{"id":1,"result":{"a":1}}`.
   */
  lemma EchoRoundTrip(methods: map<string, Handler>, echo: Handler, log: LogOpts, raw: string, s: Socket)
    requires forall p :: echo(p) == Returns(p)
    requires s.throwsOn(Success(Num(1), Obj(map["a" := Num(1)]))).None?
    ensures var request := Obj(map["method" := Str("echo"), "params" := Obj(map["a" := Num(1)]), "id" := Num(1)]);
      Select(ProcessTrace(methods["echo" := echo], log, raw, Some(request), s), SocketSends)
        == [Delivered(s.handle, Success(Num(1), Obj(map["a" := Num(1)])))]
  {
    var request := Obj(map["method" := Str("echo"), "params" := Obj(map["a" := Num(1)]), "id" := Num(1)]);
    assert echo(Obj(map["a" := Num(1)])) == Returns(Obj(map["a" := Num(1)]));
    HandlerReturnsReply(methods["echo" := echo], log, raw, request, s, Obj(map["a" := Num(1)]));
  }

  /**
   * The names a plain JavaScript object inherits from Object.prototype: on a
   * registry created as `{}`, `registry[name]` is truthy for each of them.
   */
  const ObjectPrototypeNames: set<string> :=
    {"__proto__", "__defineGetter__", "__defineSetter__", "__lookupGetter__", "__lookupSetter__",
     "constructor", "hasOwnProperty", "isPrototypeOf", "propertyIsEnumerable",
     "toLocaleString", "toString", "valueOf"}

  /**
   * `inherited.call(null, params)` for an inherited name, where `typeError`
   * is the TypeError the engine throws (its text is engine-specific).
   * `toString` describes `null` as "[object Null]"; `isPrototypeOf` answers
   * false for a non-object argument before it looks at `this`; `constructor`
   * is `Object(params)`; `__proto__` is Object.prototype itself, which has no
   * `call`; every other one converts `this` (null) to an object and throws.
   */
  function InheritedCall(name: string, typeError: Value, params: Value): Outcome {
    if name == "toString" then Returns(Str("[object Null]"))
    else if name == "isPrototypeOf" && !params.Obj? && !params.Arr? then Returns(Bool(false))
    else if name == "constructor" then Returns(if params == Undefined || params == Null then Obj(map[]) else params)
    else Throws(typeError)
  }

  /**
   * The registry as `this._exposedMethodsMap[name]` reads it, the object
   * having been created as `{}`: the exposed handlers, and for any other name
   * Object.prototype provides, the inherited function.
   */
  function RegistryAsWritten(methods: map<string, Handler>, typeError: Value): (r: map<string, Handler>)
    ensures r.Keys == methods.Keys + ObjectPrototypeNames
    ensures forall name :: name in methods ==> r[name] == methods[name]
  {
    map name | name in methods.Keys + ObjectPrototypeNames ::
      if name in methods then methods[name] else (p => InheritedCall(name, typeError, p))
  }

  /** An inherited name that was not exposed is found, and calls the inherited function. */
  lemma InheritedEntry(methods: map<string, Handler>, typeError: Value, name: string, params: Value)
    requires name in ObjectPrototypeNames && name !in methods
    ensures name in RegistryAsWritten(methods, typeError)
    ensures RegistryAsWritten(methods, typeError)[name](params) == InheritedCall(name, typeError, params)
  {
  }

  /**
   * As written, a request `{"method":"toString","id":1}` to a server that
   * exposed nothing calls the inherited `toString` and is answered
   * `{"id":1,"result":"[object Null]"}`, where the model answers MethodNotFound
   * (`MethodNotFoundReply`).
   */
  lemma InheritedNameFoundAsWritten(log: LogOpts, raw: string, s: Socket, typeError: Value)
    requires s.throwsOn(Success(Num(1), Str("[object Null]"))).None?
    ensures "toString" in RegistryAsWritten(map[], typeError)
    ensures var request := Obj(map["method" := Str("toString"), "id" := Num(1)]);
      Select(ProcessTrace(RegistryAsWritten(map[], typeError), log, raw, Some(request), s), SocketSends)
        == [Delivered(s.handle, Success(Num(1), Str("[object Null]")))]
  {
    var request := Obj(map["method" := Str("toString"), "id" := Num(1)]);
    var registry := RegistryAsWritten(map[], typeError);
    assert request.fields["method"] == Str("toString") && request.fields["id"] == Num(1);
    assert Get(request, "params") == Undefined;
    InheritedEntry(map[], typeError, "toString", Undefined);
    HandlerReturnsReply(registry, log, raw, request, s, Str("[object Null]"));
  }

  /**
   * As written, a call to any inherited name that was not exposed is answered
   * with a result or an InternalError, never MethodNotFound; the model
   * answers MethodNotFound.
   */
  lemma InheritedNamesAsWritten(methods: map<string, Handler>, typeError: Value, v: Value)
    requires NamesMethod(v) && CarriesCallId(v)
    requires v.fields["method"].s in ObjectPrototypeNames && v.fields["method"].s !in methods
    ensures FirstAttempt(methods, Some(v)) == Some(ErrorReply(v, MethodNotFound, Undefined))
    ensures var first := FirstAttempt(RegistryAsWritten(methods, typeError), Some(v)).value;
      first.Success? || (first.Failure? && first.error.code == InternalError)
  {
  }

  /** Everywhere else, the registry as written and the model dispatch alike. */
  lemma AsWrittenAgreesElsewhere(methods: map<string, Handler>, typeError: Value, parsed: Option<Value>)
    requires Classify(parsed).Call? ==> Classify(parsed).name !in ObjectPrototypeNames || Classify(parsed).name in methods
    ensures FirstAttempt(RegistryAsWritten(methods, typeError), parsed) == FirstAttempt(methods, parsed)
  {
  }
}
