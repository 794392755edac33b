/**
 * What the server does to the outside world, as entries of one ordered trace:
 * lines written to the console, events emitted on the server's own event
 * emitter, and messages handed to a socket. Keeping them in one sequence keeps
 * their relative order; `Select` recovers a single channel.
 */
module Effects {
  import opened Wrappers
  import opened JsValue
  import opened Envelope

  /**
   * A message as `_logMessage` sees it: the raw inbound text before parsing,
   * or the outbound message about to be serialized and sent.
   */
  datatype Logged = Received(raw: string) | Sending(msg: Message)

  /** The `direction` argument of `_logMessage`, which is also the event name. */
  function EventName(entry: Logged): string {
    if entry.Received? then "receive" else "send"
  }

  /** The first argument of `console.log` in `_logMessage`. */
  function ConsolePrefix(entry: Logged): string {
    if entry.Received? then "Server <" else "Server >"
  }

  /** The argument of an emitted event: a notification's params, or a logged message. */
  datatype Payload = Params(value: Value) | Text(entry: Logged)

  datatype Effect =
    | ConsoleLine(prefix: string, entry: Logged)
    | Emitted(event: string, payload: Payload)
    | Delivered(socket: nat, msg: Message)

  datatype Channel = ConsoleSink | LogEvents | NotificationEvents | SocketSends

  function ChannelOf(e: Effect): Channel {
    match e
    case ConsoleLine(_, _) => ConsoleSink
    case Emitted(_, Text(_)) => LogEvents
    case Emitted(_, Params(_)) => NotificationEvents
    case Delivered(_, _) => SocketSends
  }

  /** The entries of one channel, in trace order. */
  function Select(t: seq<Effect>, c: Channel): (r: seq<Effect>)
    ensures |r| <= |t|
  {
    if t == [] then []
    else (if ChannelOf(t[0]) == c then [t[0]] else []) + Select(t[1..], c)
  }

  /** `Select` keeps exactly the entries of its channel: nothing else, and every one of them. */
  lemma {:induction false} SelectFilters(t: seq<Effect>, c: Channel)
    ensures forall e :: e in Select(t, c) ==> ChannelOf(e) == c
    ensures forall i :: 0 <= i < |t| && ChannelOf(t[i]) == c ==> t[i] in Select(t, c)
    decreases |t|
  {
    if t != [] {
      var head := if ChannelOf(t[0]) == c then [t[0]] else [];
      SelectFilters(t[1..], c);
      assert Select(t, c) == head + Select(t[1..], c);
      forall i | 0 < i < |t| && ChannelOf(t[i]) == c ensures t[i] in Select(t, c) {
        assert t[i] == t[1..][i - 1];
      }
    }
  }

  /** Selecting a channel distributes over appending traces. */
  lemma {:induction false} SelectAppend(a: seq<Effect>, b: seq<Effect>, c: Channel)
    ensures Select(a + b, c) == Select(a, c) + Select(b, c)
  {
    if a == [] {
      assert a + b == b;
    } else {
      var head := if ChannelOf(a[0]) == c then [a[0]] else [];
      assert (a + b)[0] == a[0] && (a + b)[1..] == a[1..] + b;
      SelectAppend(a[1..], b, c);
      AppendAssoc(head, Select(a[1..], c), Select(b, c));
    }
  }

  /** Appending traces is associative; stated once so that proofs need not rediscover it. */
  lemma AppendAssoc(a: seq<Effect>, b: seq<Effect>, c: seq<Effect>)
    ensures (a + b) + c == a + (b + c)
  {
  }

  /**
   * A connection: its handle and, for each message, the value its `send`
   * throws on that message, if it throws. A transport may reject one message
   * (a large result, say) and accept the next.
   */
  datatype Socket = Socket(handle: nat, throwsOn: Message -> Option<Value>)

  /** The transport as the server sees it; `clients` is absent when it cannot broadcast. */
  datatype SocketServer = SocketServer(clients: Option<seq<Socket>>)

  /** `{logEmit?, logConsole?}`; an omitted field is `None`, JavaScript's `undefined`. */
  datatype LogOpts = LogOpts(logEmit: Option<bool>, logConsole: Option<bool>)

  /** Truthiness of a logging flag. */
  predicate On(flag: Option<bool>) {
    flag == Some(true)
  }

  /** How a call that may throw ended. */
  datatype Completion = Normal | Threw(error: Value)
}
