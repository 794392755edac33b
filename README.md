# noice-json-rpc server dispatch, modelled in Dafny

This project models the `Server` class of `src/noice-json-rpc.ts`. The class
implements a subset of the JSON-RPC 2.0 Specification over any transport that
can send and receive strings. The model covers:

- the method registry and `expose`;
- the classification of every inbound message in `processMessage`: parse
  error, invalid request, method not found, handler result, handler exception,
  notification;
- the error objects built by `_errorFromCode` and `_sendError`, and the
  defaulting done by the `MessageError` constructor;
- the two logging switches and `_logMessage`;
- `_send` and `notify`, the broadcast to every client in index order.

The server's observable behaviour is one ordered trace of effects
(`Effects.Effect`), held in the field `RpcServer.Server.trace`. Three kinds of
effect go into it:

- lines written to the console;
- events emitted on the server's own event emitter (logging events and
  notification events);
- messages handed to a socket.

`Effects.Select` recovers a single channel from the trace. Keeping one trace
lets the model state ordering facts, such as "the 'send' log comes right before
the socket receives the message".

The model is built in two layers:

- **Specification functions.** `Dispatch.ProcessTrace`,
  `Broadcast.BroadcastTrace` and their helpers compute, from the registry, the
  logging flags, the parse result and the socket, the exact trace each
  operation appends.
- **Imperative methods.** The methods of the class `RpcServer.Server` follow
  the source statement by statement. Each is proved to append exactly that
  trace. The lemmas in `Dispatch` and `Broadcast` prove what the protocol
  promises about these traces.

Other modelling choices:

- **JavaScript values** are the datatype `JsValue.Value`, which includes
  `undefined`. JavaScript truthiness is `JsValue.Truthy`.
- **`JSON.parse`** is an input of type `Option<Value>`; `None` means it threw.
- **A handler** is a total function from the params to `Returns(v)` or
  `Throws(e)`.
- **A socket** is a handle plus a function that gives, for each message, the
  value its `send` throws on that message, if any. One socket may reject one
  message and accept the next.
- **Outbound messages** stay structured values; they are never serialized.

Where the code and the prose description of the library differ, the model
follows the code:

- The id must be a *truthy* number, so `id: 0` makes a notification.
- The method must be a *non-empty* string, and the parsed value must be
  truthy.
- The error data is `error.message` when that is truthy, and the thrown value
  itself otherwise. It is not always the message.
- A socket that throws on a *success* reply is not silent: the exception lands
  in the handler's `catch`, and an InternalError reply is sent on the same
  socket. The peer receives it exactly when the socket accepts it. A socket
  that throws during `notify` ends the broadcast, and the exception propagates
  to the caller.
- The console tags are `Server <` and `Server >`.

## Model

| member | source | states |
|---|---|---|
| ErrorTaxonomy.ErrorFromCode | src/noice-json-rpc.ts:147-166 | code and data pass through unchanged; the message is empty exactly when the code is not one of the four protocol codes |
| ErrorTaxonomy.MessageNamesCode | src/noice-json-rpc.ts:150-163 | for each protocol code, whatever the method and data, the message is recognised as that code's message |
| ErrorTaxonomy.MessageIdentifiesCode | src/noice-json-rpc.ts:150-163 | two protocol codes that produce the same message are the same code, whatever the method names and data |
| ErrorTaxonomy.MessageQuotesMethod | src/noice-json-rpc.ts:151-155 | the MethodNotFound and InternalError messages quote the method name, and the name can be read back from the message |
| ErrorTaxonomy.NewMessageError | src/noice-json-rpc.ts:34-38 | `new MessageError(e)` throws exactly when e is null or undefined; the message is e.message ("" when absent); code is e.code when truthy, else 0; data is e.data when truthy, else null |
| ErrorTaxonomy.MessageErrorKeepsProtocolError | src/noice-json-rpc.ts:34-38 | wrapping a protocol error object keeps its code and message, and keeps its data unless that data is falsy, which becomes null |
| JsValue.Display | src/noice-json-rpc.ts:152-155 | a string interpolates as itself, and an absent method as "undefined" |
| Envelope.Classify | src/noice-json-rpc.ts:80-81 | four cases: unparsable iff the parse failed; invalid iff there is no non-empty string method; notification iff there is a method but no non-zero numeric id; call iff there are both; each case carries the request's own method, id and params |
| Envelope.ResponseId | src/noice-json-rpc.ts:139 | the error id is the request's truthy id, whatever its type, and -1 otherwise; it is never falsy |
| Envelope.ErrorData | src/noice-json-rpc.ts:140 | the error data is the thrown value's truthy `message`, else the thrown value itself; it is truthy iff the thrown value is |
| Envelope.SuccessResult | src/noice-json-rpc.ts:96 | a truthy handler value is sent unchanged, a falsy one as `{}`; the result is never falsy |
| Dispatch.FirstAttempt | src/noice-json-rpc.ts:67-112 | no reply is attempted exactly for notifications; a success reply is attempted only for a call |
| Dispatch.Retry | src/noice-json-rpc.ts:85-100 | a second `_send` happens exactly when the first attempt is a success reply the socket throws on |
| Dispatch.ProcessChannels | src/noice-json-rpc.ts:67-134 | for every message, the peer receives at most the reply `Dispatch.Reply` picks (the first attempt if the socket accepts it, else the InternalError retry if the socket accepts that); the only notification event is the notification's own; with console logging on, the console shows the inbound text and then every attempt in order |
| Dispatch.ParseFailureReply | src/noice-json-rpc.ts:72-76 | unparsable text gets exactly one reply: id -1, code -32700, the fixed ParseError message, no data; no event is emitted |
| Dispatch.InvalidRequestReply | src/noice-json-rpc.ts:108-110 | a value without a non-empty string method gets exactly one reply: code -32600, the fixed InvalidRequest message, the value's id if truthy, else -1 |
| Dispatch.MethodNotFoundReply | src/noice-json-rpc.ts:101-102 | a call to an unexposed method gets one reply: code -32601, a message quoting the method, the request's id; no handler runs |
| Dispatch.HandlerReturnsReply | src/noice-json-rpc.ts:84-96 | a call whose handler returns r, on a socket that accepts the reply, gets exactly one reply: the request's id, with r as result, or `{}` when r is falsy |
| Dispatch.HandlerThrowsReply | src/noice-json-rpc.ts:98-99 | a call whose handler throws e gets one reply: code -32603, a message quoting the method, data e.message if truthy, else e |
| Dispatch.UnsendableSuccess | src/noice-json-rpc.ts:85-100 | when the socket throws on the success reply, the server sends an InternalError reply naming the method and carrying the socket's error; the peer receives it exactly when the socket accepts that reply; the console shows the inbound text, then both attempts in order |
| Dispatch.NotificationReply | src/noice-json-rpc.ts:104-106 | a notification sends nothing and emits exactly one event named after the method, carrying the params; the registry plays no part |
| Dispatch.ZeroIdIsNotification | src/noice-json-rpc.ts:81 | a message with `id: 0` for an exposed method is a notification: no reply, one event |
| Dispatch.AtMostOneReply | src/noice-json-rpc.ts:67-112 | whatever arrives, at most one message reaches the peer, and only on the socket the message came in on |
| Dispatch.LoggingTransparent | src/noice-json-rpc.ts:115-128 | the socket traffic and the notification events are the same under any two logging configurations |
| Dispatch.ConsoleMirrorsTraffic | src/noice-json-rpc.ts:120-133 | with console logging on, the console first shows the inbound text tagged '<', and every message the peer receives also appears after it tagged '>'; with console logging off it shows nothing |
| Dispatch.NothingDeliveredWhenSocketThrows | src/noice-json-rpc.ts:136-145 | a socket whose send throws on every message receives nothing, and the failure does not escape `processMessage` |
| Dispatch.ProcessLoggedBeforeSent | src/noice-json-rpc.ts:130-134 | in every trace of `processMessage`, each message handed to a socket comes right after its own 'send' log entries |
| Dispatch.EchoRoundTrip | src/noice-json-rpc.ts:168-170 | after exposing an identity handler as "echo", the request `{"method":"echo","params":{"a":1},"id":1}` is answered with exactly `{"id":1,"result":{"a":1}}` when the socket accepts that reply |
| Dispatch.InheritedNameFoundAsWritten | src/noice-json-rpc.ts:82-86 | as written, the lookup on `{}` finds an inherited "toString", and `{"method":"toString","id":1}` is answered `{"id":1,"result":"[object Null]"}` |
| Dispatch.RegistryAsWritten | src/noice-json-rpc.ts:49 | the registry created as `{}` answers for the exposed names, with their own handlers, and for every name Object.prototype provides |
| Dispatch.InheritedNamesAsWritten | src/noice-json-rpc.ts:82-86 | a call to an inherited name that was not exposed is answered MethodNotFound by the model, but as written gets a result or an InternalError |
| Dispatch.AsWrittenAgreesElsewhere | src/noice-json-rpc.ts:82-84 | for every message except a call to an inherited name that was not exposed, the registry as written and the model attempt the same reply |
| Broadcast.FirstFailure | src/noice-json-rpc.ts:174-180 | there is no failure iff every socket accepts the notification; otherwise the failure is what the first socket that rejects it throws |
| Broadcast.NotifySends | src/noice-json-rpc.ts:174-177 | the socket entries of a broadcast are one delivery per client, in order, up to the first socket that throws on the notification |
| Broadcast.NotifyDeliversInOrder | src/noice-json-rpc.ts:172-177 | the broadcast reaches clients 0..n-1 in index order, once each, where n counts the leading clients whose socket accepts the notification |
| Broadcast.NotifyReachesEveryClient | src/noice-json-rpc.ts:174-177 | when every socket accepts the notification, each client receives the message exactly once, in index order, and `notify` returns normally |
| Broadcast.NotifyEdgeCases | src/noice-json-rpc.ts:174-180 | without a client list, `notify` throws the "does not support broadcasting" error and sends nothing; with an empty list it sends nothing and returns normally |
| Broadcast.NotifyEmitsNoEvent | src/noice-json-rpc.ts:172-177 | a broadcast emits no notification event of its own |
| Broadcast.NotifyLoggedBeforeSent | src/noice-json-rpc.ts:176 | during a broadcast, each message handed to a socket comes right after its 'send' log |
| RpcServer.Server.constructor | src/noice-json-rpc.ts:53-61 | a new server keeps the transport, has an empty registry, the logging flags from its options, and has done nothing yet |
| RpcServer.Server.SetLogging | src/noice-json-rpc.ts:115-118 | both flags are overwritten; an omitted flag turns its mode off |
| RpcServer.Server.LogMessage | src/noice-json-rpc.ts:120-128 | appends a console line when console logging is on, then an event named after the direction when emit logging is on |
| RpcServer.Server.Send | src/noice-json-rpc.ts:130-134 | logs the message, then delivers it unless the socket throws on that message; returns what the socket threw |
| RpcServer.Server.SendError | src/noice-json-rpc.ts:136-145 | appends one `_send` of the error reply built from the request, the code and the error; a socket failure is swallowed |
| RpcServer.Server.ProcessMessage | src/noice-json-rpc.ts:67-112 | appends exactly the trace `Dispatch.ProcessTrace` gives: the 'receive' log first, then the dispatch |
| RpcServer.Server.Route | src/noice-json-rpc.ts:79-111 | the part after parsing appends exactly `Dispatch.DispatchTrace` for the parsed value |
| RpcServer.Server.Expose | src/noice-json-rpc.ts:168-170 | the name now maps to the handler, the last registration winning; no other entry changes and no entry disappears |
| RpcServer.Server.Notify | src/noice-json-rpc.ts:172-181 | appends exactly the broadcast trace; throws without a client list, passes on the first socket's exception, else returns normally |
| RpcServer.Server.SendToEach | src/noice-json-rpc.ts:175-177 | the loop sends to each client in order, stops at the first socket that throws, and returns what that socket threw |

## Left out

- `JSON.parse` and `JSON.stringify` are foreign calls. The parse result is an input (`None` when parsing throws). Outbound messages are structured values, so a `JSON.stringify` that throws (a cyclic handler result) is not modelled.
- `console.log` and the `eventemitter3` emitter are only entries appended to the trace. Listener code is external, so a listener that throws or re-enters the server is not modelled.
- The transport wiring in the constructor (the 'connection' and 'message' subscriptions) is I/O plumbing, and is not modelled.
- `RpcServer.Server.constructor`: the `TypeError` thrown for a null or undefined transport is not modelled; the model's transport always exists.
- JavaScript numbers are integers in the model: doubles, NaN and fractional ids are not represented. Only 0 is a falsy number.
- The commented-out Promise branch of `processMessage` is dead code, and asynchronous completion is out of scope.
- `notify` reads the client list as one snapshot; clients connecting or disconnecting during a broadcast are not modelled.
- `RpcServer.Server.SetLogging`: an argument of `null`, which makes the destructuring throw, is not modelled; an omitted argument is the same as `{}`.
- `lib/noice-json-rpc.js` is the compiled form of the same source, and `lib/noice-json-rpc.d.ts` holds only declarations; neither is modelled separately.
- The `json-rpc2` module that defines the error codes is not part of this model. Its four codes are constants in `ErrorTaxonomy`.
- A socket's failure is a function of the message it is given. A connection whose state changes over time (one that closes between two sends) is modelled only through that function.
- The text of the TypeError the engine throws when an inherited Object.prototype function is called on `null` is engine-specific. It is a parameter of `Dispatch.RegistryAsWritten`.
- Dispatch.InheritedCall: for "constructor" with falsy primitive params (0, false, ""), the source answers with the wrapped primitive, which serialises as that primitive; the model answers `{}`.
- Dispatch.RegistryAsWritten: `expose("__proto__", h)` replaces the registry object's prototype in the source; the model treats it as an ordinary entry.
- Property access reads own properties only (`JsValue.Get`). Properties inherited from `Object.prototype` appear in one place only: the registry lookup that the finding below concerns.

## Findings

| source | as written | input that shows it | evidently intended | confidence | as-written member | corrected member |
|---|---|---|---|---|---|---|
| src/noice-json-rpc.ts:82-84 | the registry is a plain object `{}`, so `this._exposedMethodsMap[request.method]` also finds the twelve names inherited from Object.prototype (`toString`, `valueOf`, `constructor`, `__proto__`, …), and the server calls that inherited function as a handler | `{"method":"toString","id":1}` sent to a server that exposed nothing is answered `{"id":1,"result":"[object Null]"}` | a MethodNotFound reply (code -32601) for any name that was never exposed | medium, not executed | Dispatch.InheritedNameFoundAsWritten | Dispatch.MethodNotFoundReply |
