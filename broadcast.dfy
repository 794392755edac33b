/**
 * `notify(method, params)`: one `{method, params}` message sent to every
 * client of the transport in index order, and the error when the transport
 * has no client list.
 */
module Broadcast {
  import opened Wrappers
  import opened JsValue
  import opened Envelope
  import opened Effects
  import opened Dispatch

  const NoBroadcastMessage: string :=
    "SocketServer does not support broadcasting. No \"clients: LikeSocket[]\" property found"

  /** `new Error(message)`, seen as a value with that `message`. */
  function ErrorInstance(message: string): Value {
    Obj(map["message" := Str(message)])
  }

  /**
   * The loop over the clients: one `_send` each, in index order. A socket that
   * throws ends the loop, since nothing in `notify` catches the exception.
   */
  function NotifyTrace(log: LogOpts, clients: seq<Socket>, m: Message): seq<Effect>
    decreases |clients|
  {
    if |clients| == 0 then []
    else SendTrace(log, clients[0], m)
         + if clients[0].throwsOn(m).Some? then [] else NotifyTrace(log, clients[1..], m)
  }

  /** How many clients, counted from the first, accept `m`. */
  function LeadingAlive(clients: seq<Socket>, m: Message): (n: nat)
    ensures n <= |clients|
    ensures forall i :: 0 <= i < n ==> clients[i].throwsOn(m).None?
    ensures n < |clients| ==> clients[n].throwsOn(m).Some?
    decreases |clients|
  {
    if |clients| == 0 || clients[0].throwsOn(m).Some? then 0
    else 1 + LeadingAlive(clients[1..], m)
  }

  /** What the first socket that throws on `m` throws, if any does. */
  function FirstFailure(clients: seq<Socket>, m: Message): (r: Option<Value>)
    ensures r.None? <==> forall i :: 0 <= i < |clients| ==> clients[i].throwsOn(m).None?
    ensures r.Some? ==> LeadingAlive(clients, m) < |clients| && r == clients[LeadingAlive(clients, m)].throwsOn(m)
    decreases |clients|
  {
    if |clients| == 0 then None
    else if clients[0].throwsOn(m).Some? then clients[0].throwsOn(m)
    else FirstFailure(clients[1..], m)
  }

  /** The trace of `notify`: nothing at all without a client list. */
  function BroadcastTrace(log: LogOpts, clients: Option<seq<Socket>>, m: Message): seq<Effect> {
    match clients
    case None => []
    case Some(cs) => NotifyTrace(log, cs, m)
  }

  /** How `notify` ends: it throws without a client list, or with the first socket's failure. */
  function NotifyCompletion(clients: Option<seq<Socket>>, m: Message): Completion {
    match clients
    case None => Threw(ErrorInstance(NoBroadcastMessage))
    case Some(cs) =>
      match FirstFailure(cs, m)
      case None => Normal
      case Some(e) => Threw(e)
  }

  /** The socket entries a broadcast should leave: one per client, up to the first that throws. */
  function Deliveries(clients: seq<Socket>, m: Message): seq<Effect>
    decreases |clients|
  {
    if |clients| == 0 || clients[0].throwsOn(m).Some? then []
    else [Delivered(clients[0].handle, m)] + Deliveries(clients[1..], m)
  }

  lemma {:induction false} NotifySends(log: LogOpts, clients: seq<Socket>, m: Message)
    ensures Select(NotifyTrace(log, clients, m), SocketSends) == Deliveries(clients, m)
    decreases |clients|
  {
    if |clients| != 0 {
      var head := SendTrace(log, clients[0], m);
      var rest := if clients[0].throwsOn(m).Some? then [] else NotifyTrace(log, clients[1..], m);
      assert NotifyTrace(log, clients, m) == head + rest;
      SendTraceChannels(log, clients[0], m);
      SelectAppend(head, rest, SocketSends);
      if clients[0].throwsOn(m).None? {
        NotifySends(log, clients[1..], m);
      }
    }
  }

  lemma {:induction false} DeliveriesInOrder(clients: seq<Socket>, m: Message)
    ensures |Deliveries(clients, m)| == LeadingAlive(clients, m)
    ensures forall i :: 0 <= i < |Deliveries(clients, m)| ==> Deliveries(clients, m)[i] == Delivered(clients[i].handle, m)
    decreases |clients|
  {
    if |clients| != 0 && clients[0].throwsOn(m).None? {
      DeliveriesInOrder(clients[1..], m);
      var tail := Deliveries(clients[1..], m);
      forall i | 0 < i < |Deliveries(clients, m)| ensures Deliveries(clients, m)[i] == Delivered(clients[i].handle, m) {
        assert Deliveries(clients, m)[i] == tail[i - 1];
        assert clients[1..][i - 1] == clients[i];
      }
    }
  }

  /**
   * The message reaches the clients once each, in index order, up to (not
   * including) the first socket that throws.
   */
  lemma NotifyDeliversInOrder(log: LogOpts, clients: seq<Socket>, m: Message)
    ensures var sent := Select(NotifyTrace(log, clients, m), SocketSends);
      && |sent| == LeadingAlive(clients, m)
      && forall i :: 0 <= i < |sent| ==> sent[i] == Delivered(clients[i].handle, m)
  {
    NotifySends(log, clients, m);
    DeliveriesInOrder(clients, m);
  }

  /** A broadcast emits no notification event of its own. */
  lemma {:induction false} NotifyEmitsNoEvent(log: LogOpts, clients: seq<Socket>, m: Message)
    ensures Select(NotifyTrace(log, clients, m), NotificationEvents) == []
    decreases |clients|
  {
    if |clients| != 0 {
      var head := SendTrace(log, clients[0], m);
      var rest := if clients[0].throwsOn(m).Some? then [] else NotifyTrace(log, clients[1..], m);
      assert NotifyTrace(log, clients, m) == head + rest;
      SendTraceChannels(log, clients[0], m);
      SelectAppend(head, rest, NotificationEvents);
      if clients[0].throwsOn(m).None? {
        NotifyEmitsNoEvent(log, clients[1..], m);
      }
    }
  }

  /** With every socket accepting the message, each client receives the message exactly once and `notify` returns normally. */
  lemma NotifyReachesEveryClient(log: LogOpts, clients: seq<Socket>, m: Message)
    requires forall i :: 0 <= i < |clients| ==> clients[i].throwsOn(m).None?
    ensures var sent := Select(BroadcastTrace(log, Some(clients), m), SocketSends);
      && |sent| == |clients|
      && forall i :: 0 <= i < |clients| ==> sent[i] == Delivered(clients[i].handle, m)
    ensures NotifyCompletion(Some(clients), m) == Normal
  {
    NotifyDeliversInOrder(log, clients, m);
  }

  /** Without a client list `notify` throws and sends nothing; an empty list sends nothing and returns normally. */
  lemma NotifyEdgeCases(log: LogOpts, m: Message)
    ensures BroadcastTrace(log, None, m) == [] && NotifyCompletion(None, m).Threw?
    ensures NotifyCompletion(None, m).error == ErrorInstance(NoBroadcastMessage)
    ensures BroadcastTrace(log, Some([]), m) == [] && NotifyCompletion(Some([]), m) == Normal
  {
  }

  /** Every message a broadcast hands to a socket is preceded by its 'send' log. */
  lemma {:induction false} NotifyLoggedBeforeSent(log: LogOpts, clients: seq<Socket>, m: Message)
    ensures LoggedBeforeSent(log, NotifyTrace(log, clients, m))
    decreases |clients|
  {
    if |clients| != 0 {
      var rest := if clients[0].throwsOn(m).Some? then [] else NotifyTrace(log, clients[1..], m);
      SendTraceLogged(log, clients[0], m);
      if clients[0].throwsOn(m).None? {
        NotifyLoggedBeforeSent(log, clients[1..], m);
      }
      LoggedBeforeSentAppend(log, SendTrace(log, clients[0], m), rest);
    }
  }
}
