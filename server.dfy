/**
 * The `Server` class: its method registry, logging flags and the transport it
 * was given, and the effect trace its methods append to.
 */
module RpcServer {
  import opened Wrappers
  import opened JsValue
  import opened ErrorTaxonomy
  import opened Envelope
  import opened Effects
  import opened Dispatch
  import opened Broadcast

  class Server {
    /** `_socketServer`: the transport, with its client list if it can broadcast. */
    const socketServer: SocketServer
    /** `_exposedMethodsMap` */
    var methods: map<string, Handler>
    /** `_emitLog` */
    var emitLog: Option<bool>
    /** `_consoleLog` */
    var consoleLog: Option<bool>
    /** Everything written to the console, emitted, or handed to a socket, oldest first. */
    var trace: seq<Effect>

    /** The logging configuration as last set. */
    function Logging(): LogOpts
      reads this`emitLog, this`consoleLog
    {
      LogOpts(emitLog, consoleLog)
    }

    /** `new Server(server, opts)`: logging as `opts` says, an empty registry, nothing done yet. */
    constructor (server: SocketServer, opts: LogOpts)
      ensures socketServer == server
      ensures methods == map[] && Logging() == opts && trace == []
    {
      socketServer := server;
      methods := map[];
      emitLog := opts.logEmit;
      consoleLog := opts.logConsole;
      trace := [];
    }

    /** `setLogging({logEmit, logConsole})`: both flags are overwritten; an omitted one becomes `None`, which is off. */
    method SetLogging(opts: LogOpts)
      modifies this`emitLog, this`consoleLog
      ensures Logging() == opts
      ensures opts.logEmit == None ==> !On(emitLog)
      ensures opts.logConsole == None ==> !On(consoleLog)
    {
      emitLog := opts.logEmit;
      consoleLog := opts.logConsole;
    }

    /** `_logMessage(messageStr, direction)` */
    method LogMessage(entry: Logged)
      modifies this`trace
      ensures trace == old(trace) + LogTrace(Logging(), entry)
    {
      if On(consoleLog) {
        trace := trace + [ConsoleLine(ConsolePrefix(entry), entry)];
      }
      if On(emitLog) {
        trace := trace + [Emitted(EventName(entry), Text(entry))];
      }
    }

    /** `_send(socket, message)`: returns what `socket.send` threw, if it threw. */
    method Send(socket: Socket, message: Message) returns (thrown: Option<Value>)
      modifies this`trace
      ensures trace == old(trace) + SendTrace(Logging(), socket, message)
      ensures thrown == socket.throwsOn(message)
    {
      LogMessage(Sending(message));
      thrown := socket.throwsOn(message);
      if thrown.None? {
        trace := trace + [Delivered(socket.handle, message)];
      }
    }

    /** `_sendError(socket, request, code, error)`: a failure to send is swallowed. */
    method SendError(socket: Socket, request: Value, code: int, error: Value)
      modifies this`trace
      ensures trace == old(trace) + SendTrace(Logging(), socket, ErrorReply(request, code, error))
    {
      var id := if Truthy(request) && Truthy(Get(request, "id")) then Get(request, "id") else Num(-1);
      var data := if Truthy(error) && Truthy(Get(error, "message")) then Get(error, "message") else error;
      var name := if Truthy(request) then Get(request, "method") else request;
      var _ := Send(socket, Failure(id, ErrorFromCode(code, data, name)));
    }

    /**
     * `processMessage(messageStr, socket)`, with `parsed` standing for what
     * `JSON.parse(messageStr)` returns (`None` when it throws).
     */
    method ProcessMessage(raw: string, parsed: Option<Value>, socket: Socket)
      modifies this`trace
      ensures trace == old(trace) + ProcessTrace(methods, Logging(), raw, parsed, socket)
    {
      ghost var log, start := Logging(), trace;
      LogMessage(Received(raw));
      ghost var logged := trace;
      assert logged == start + LogTrace(log, Received(raw));
      if parsed.None? {
        SendError(socket, Undefined, ParseError, Undefined);
      } else {
        Route(parsed.value, socket);
      }
      ghost var d := DispatchTrace(methods, log, parsed, socket);
      assert trace == logged + d;
      AppendAssoc(start, LogTrace(log, Received(raw)), d);
    }

    /** The part of `processMessage` after a successful parse: validate, then call, report or emit. */
    method Route(request: Value, socket: Socket)
      modifies this`trace
      ensures trace == old(trace) + DispatchTrace(methods, Logging(), Some(request), socket)
    {
      var name := Get(request, "method");
      if Truthy(request) && Truthy(name) && name.Str? {
        var id := Get(request, "id");
        if Truthy(id) && id.Num? {
          if name.s in methods {
            var handler := methods[name.s];
            match handler(Get(request, "params"))
            case Returns(result) =>
              var success := Success(id, if Truthy(result) then result else Obj(map[]));
              var thrown := Send(socket, success);
              if thrown.Some? {
                // the `catch` around the handler call also catches the socket's exception
                SendError(socket, request, InternalError, thrown.value);
                AppendAssoc(old(trace), SendTrace(Logging(), socket, success),
                  SendTrace(Logging(), socket, ErrorReply(request, InternalError, thrown.value)));
              } else {
                assert SendTrace(Logging(), socket, success) + [] == SendTrace(Logging(), socket, success);
              }
            case Throws(error) =>
              SendError(socket, request, InternalError, error);
          } else {
            SendError(socket, request, MethodNotFound, Undefined);
          }
        } else {
          // a notification: emit it under the method's name
          trace := trace + [Emitted(name.s, Params(Get(request, "params")))];
        }
      } else {
        SendError(socket, request, InvalidRequest, Undefined);
      }
    }

    /** `expose(method, handler)`: the last registration for a name wins; no other entry changes. */
    method Expose(name: string, handler: Handler)
      modifies this`methods
      ensures methods == old(methods)[name := handler]
      ensures methods.Keys == old(methods).Keys + {name}
      ensures forall k :: k in old(methods) && k != name ==> methods[k] == old(methods)[k]
    {
      methods := methods[name := handler];
    }

    /**
     * `notify(method, params)`: `{method, params}` to each client in index
     * order. It throws when the transport has no client list, and passes on
     * the first exception a socket throws.
     */
    method Notify(name: string, params: Value) returns (completion: Completion)
      modifies this`trace
      ensures trace == old(trace) + BroadcastTrace(Logging(), socketServer.clients, Broadcast(name, params))
      ensures completion == NotifyCompletion(socketServer.clients, Broadcast(name, params))
    {
      if socketServer.clients.None? {
        assert old(trace) + [] == trace;
        return Threw(ErrorInstance(NoBroadcastMessage));
      }
      var failure := SendToEach(socketServer.clients.value, Broadcast(name, params));
      completion := if failure.Some? then Threw(failure.value) else Normal;
    }

    /**
     * The loop of `notify`: one `_send` per client in index order, stopping at
     * the first socket that throws and returning what it threw.
     */
    method SendToEach(clients: seq<Socket>, message: Message) returns (failure: Option<Value>)
      modifies this`trace
      ensures trace == old(trace) + NotifyTrace(Logging(), clients, message)
      ensures failure == FirstFailure(clients, message)
    {
      ghost var log := Logging();
      var i := 0;
      while i < |clients|
        invariant 0 <= i <= |clients|
        invariant Logging() == log
        invariant trace + NotifyTrace(log, clients[i..], message) == old(trace) + NotifyTrace(log, clients, message)
        invariant FirstFailure(clients[i..], message) == FirstFailure(clients, message)
      {
        ghost var before := trace;
        var thrown := Send(clients[i], message);
        NextClient(log, clients, i, message);
        if thrown.Some? {
          assert trace == before + NotifyTrace(log, clients[i..], message);
          return thrown;
        }
        AppendAssoc(before, SendTrace(log, clients[i], message), NotifyTrace(log, clients[i + 1..], message));
        i := i + 1;
      }
      assert clients[i..] == [];
      failure := None;
    }
  }

  /** Client `i` opens the rest of the broadcast: its `_send`, then the others unless it throws. */
  lemma NextClient(log: LogOpts, clients: seq<Socket>, i: nat, m: Message)
    requires i < |clients|
    ensures NotifyTrace(log, clients[i..], m)
         == SendTrace(log, clients[i], m)
          + if clients[i].throwsOn(m).Some? then [] else NotifyTrace(log, clients[i + 1..], m)
    ensures FirstFailure(clients[i..], m)
         == if clients[i].throwsOn(m).Some? then clients[i].throwsOn(m) else FirstFailure(clients[i + 1..], m)
  {
    assert clients[i..][0] == clients[i];
    assert clients[i..][1..] == clients[i + 1..];
  }
}
