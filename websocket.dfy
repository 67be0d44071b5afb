/** `useWebSocket`: the client side of the matching notification socket.

    The hook keeps a reference to the current socket, a reference to the
    last reconnect timer, and two pieces of view state (`isConnected`,
    `connectionError`).  Browser events and timers are methods called on a
    `Socket`: a socket opening, closing with a code, reporting an
    error or delivering a frame; a heartbeat interval tick; a reconnect
    timer firing.  Every socket ever created stays in `sockets` with its
    ready state, the close handler it currently has, and whether its
    heartbeat interval is running. */
module MatchingSocket {
  import opened Wrappers

  /** Close code 1000, normal closure (RFC 6455, section 7.4.1). */
  const NormalClosure: nat := 1000

  const FailedToConnect: string := "Failed to connect"
  const ConnectionFailed: string := "Connection failed"

  /** `WebSocket.readyState`. */
  datatype ReadyState = Connecting | Open | Closing | Closed

  /** Which `onclose` a socket has: the one `connect` installs, which
      reconnects, or the one `onopen` installs in its place, which only
      clears the heartbeat interval. */
  datatype CloseHandler = Reconnecting | StopHeartbeat

  datatype Sock = Sock(state: ReadyState, onclose: CloseHandler, heartbeat: bool)

  /** What is written on a socket: the heartbeat, or a caller's message. */
  datatype Payload = Heartbeat | AppMessage(text: string)

  datatype Sent = Sent(socket: nat, payload: Payload)

  /** What a close event does under a given handler. */
  datatype CloseEffect = CloseEffect(markDisconnected: bool, scheduleReconnect: bool, stopHeartbeat: bool)

  /** The reaction to a close event: the reconnecting handler marks the hook
      disconnected and, unless the closure was normal, schedules one
      reconnect; the handler installed on open only stops the heartbeat. */
  function CloseReaction(handler: CloseHandler, code: nat): (r: CloseEffect)
    ensures r.scheduleReconnect <==> handler == Reconnecting && code != NormalClosure
    ensures r.markDisconnected <==> handler == Reconnecting
    ensures r.stopHeartbeat <==> handler == StopHeartbeat
  {
    match handler
    case Reconnecting => CloseEffect(true, code != NormalClosure, false)
    case StopHeartbeat => CloseEffect(false, false, true)
  }

  class Socket {
    /** Whether a token and a user are present; `connect` reads both. */
    const signedIn: bool
    /** Whether an `onMessage` callback was given to the hook. */
    const hasCallback: bool

    var sockets: seq<Sock>
    var wsRef: Option<nat>
    /** Reconnect timers scheduled and neither fired nor cleared. */
    var pending: set<nat>
    var reconnectRef: Option<nat>
    var nextTimer: nat
    var isConnected: bool
    var connectionError: Option<string>
    var sent: seq<Sent>
    /** The parsed frames handed to the callback, in order. */
    var delivered: seq<string>

    /** References point at things that exist, and a socket runs a
        heartbeat, or has lost its reconnecting close handler, only once it
        has opened. */
    ghost predicate Valid()
      reads this
    {
      && (wsRef.Some? ==> wsRef.value < |sockets|)
      && (reconnectRef.Some? ==> reconnectRef.value < nextTimer)
      && (forall t :: t in pending ==> t < nextTimer)
      && (forall i :: 0 <= i < |sockets| ==> sockets[i].heartbeat ==> sockets[i].onclose == StopHeartbeat)
      && (forall i :: 0 <= i < |sockets| ==> sockets[i].onclose == StopHeartbeat ==> sockets[i].state != Connecting)
      && (forall k :: 0 <= k < |sent| ==> sent[k].socket < |sockets|)
    }

    constructor (signedIn: bool, hasCallback: bool)
      ensures Valid()
      ensures this.signedIn == signedIn && this.hasCallback == hasCallback
      ensures sockets == [] && wsRef == None && pending == {} && reconnectRef == None && nextTimer == 0
      ensures !isConnected && connectionError == None && sent == [] && delivered == []
    {
      this.signedIn := signedIn;
      this.hasCallback := hasCallback;
      sockets := [];
      wsRef := None;
      pending := {};
      reconnectRef := None;
      nextTimer := 0;
      isConnected := false;
      connectionError := None;
      sent := [];
      delivered := [];
    }

    /** `connect`: nothing without a token and a user.  Otherwise a new
        socket is created (when the constructor throws, only the error
        text is set) with the reconnecting close handler, and becomes the
        current socket; an earlier socket is not closed. */
    method Connect(created: bool)
      requires Valid()
      modifies this
      ensures Valid()
      ensures !signedIn ==> sockets == old(sockets) && wsRef == old(wsRef) && connectionError == old(connectionError)
      ensures signedIn && !created ==>
        sockets == old(sockets) && wsRef == old(wsRef) && connectionError == Some(FailedToConnect)
      ensures signedIn && created ==>
        && sockets == old(sockets) + [Sock(Connecting, Reconnecting, false)]
        && wsRef == Some(|old(sockets)|)
        && connectionError == old(connectionError)
      ensures pending == old(pending) && reconnectRef == old(reconnectRef) && nextTimer == old(nextTimer)
      ensures isConnected == old(isConnected) && sent == old(sent) && delivered == old(delivered)
    {
      if !signedIn {
        return;
      }
      if !created {
        connectionError := Some(FailedToConnect);
        return;
      }
      sockets := sockets + [Sock(Connecting, Reconnecting, false)];
      wsRef := Some(|sockets| - 1);
    }

    /** `onopen`: connected, error cleared, heartbeat started, and the close
        handler replaced by one that only stops the heartbeat. */
    method Opened(i: nat)
      requires Valid()
      requires i < |sockets| && sockets[i].state == Connecting
      modifies this
      ensures Valid()
      ensures sockets == old(sockets)[i := Sock(Open, StopHeartbeat, true)]
      ensures isConnected && connectionError == None
      ensures wsRef == old(wsRef) && pending == old(pending) && reconnectRef == old(reconnectRef)
      ensures nextTimer == old(nextTimer) && sent == old(sent) && delivered == old(delivered)
    {
      sockets := sockets[i := Sock(Open, StopHeartbeat, true)];
      isConnected := true;
      connectionError := None;
    }

    /** A close event with `code`.  Before the socket opened: the hook is
        marked disconnected and, unless the code is 1000, exactly one
        reconnect timer is scheduled and remembered.  After it opened: only
        the heartbeat stops; no reconnect, and `isConnected` keeps its value. */
    method CloseEvent(i: nat, code: nat)
      requires Valid()
      requires i < |sockets| && sockets[i].state != Closed
      modifies this
      ensures Valid()
      ensures var effect := CloseReaction(old(sockets)[i].onclose, code);
        && sockets == old(sockets)[i := Sock(Closed, old(sockets)[i].onclose, old(sockets)[i].heartbeat && !effect.stopHeartbeat)]
        && isConnected == (old(isConnected) && !effect.markDisconnected)
        && (effect.scheduleReconnect ==>
              pending == old(pending) + {old(nextTimer)} && reconnectRef == Some(old(nextTimer)) && nextTimer == old(nextTimer) + 1)
        && (!effect.scheduleReconnect ==>
              pending == old(pending) && reconnectRef == old(reconnectRef) && nextTimer == old(nextTimer))
      ensures old(sockets)[i].onclose == StopHeartbeat ==> pending == old(pending) && isConnected == old(isConnected)
      ensures wsRef == old(wsRef) && connectionError == old(connectionError)
      ensures sent == old(sent) && delivered == old(delivered)
    {
      var s := sockets[i];
      var effect := CloseReaction(s.onclose, code);
      sockets := sockets[i := Sock(Closed, s.onclose, s.heartbeat && !effect.stopHeartbeat)];
      if effect.markDisconnected {
        isConnected := false;
      }
      if effect.scheduleReconnect {
        pending := pending + {nextTimer};
        reconnectRef := Some(nextTimer);
        nextTimer := nextTimer + 1;
      }
    }

    /** `onerror`: the error text is set and the hook is disconnected. */
    method Errored(i: nat)
      requires Valid()
      requires i < |sockets|
      modifies this
      ensures Valid()
      ensures connectionError == Some(ConnectionFailed) && !isConnected
      ensures sockets == old(sockets) && wsRef == old(wsRef) && pending == old(pending)
      ensures reconnectRef == old(reconnectRef) && nextTimer == old(nextTimer)
      ensures sent == old(sent) && delivered == old(delivered)
    {
      connectionError := Some(ConnectionFailed);
      isConnected := false;
    }

    /** One tick of a socket's 30-second heartbeat interval: the heartbeat is
        written only while that socket is open. */
    method HeartbeatTick(i: nat)
      requires Valid()
      requires i < |sockets| && sockets[i].heartbeat
      modifies this
      ensures Valid()
      ensures old(sockets)[i].state == Open ==> sent == old(sent) + [Sent(i, Heartbeat)]
      ensures old(sockets)[i].state != Open ==> sent == old(sent)
      ensures sockets == old(sockets) && wsRef == old(wsRef) && pending == old(pending)
      ensures reconnectRef == old(reconnectRef) && nextTimer == old(nextTimer)
      ensures isConnected == old(isConnected) && connectionError == old(connectionError)
      ensures delivered == old(delivered)
    {
      if sockets[i].state == Open {
        sent := sent + [Sent(i, Heartbeat)];
      }
    }

    /** `onmessage`: a frame that parses is handed to the callback, when
        there is one; a frame that does not parse is dropped. */
    method MessageArrived(i: nat, parsed: Option<string>)
      requires Valid()
      requires i < |sockets| && sockets[i].state == Open
      modifies this
      ensures Valid()
      ensures parsed.Some? && hasCallback ==> delivered == old(delivered) + [parsed.value]
      ensures parsed.None? || !hasCallback ==> delivered == old(delivered)
      ensures sockets == old(sockets) && wsRef == old(wsRef) && pending == old(pending)
      ensures reconnectRef == old(reconnectRef) && nextTimer == old(nextTimer)
      ensures isConnected == old(isConnected) && connectionError == old(connectionError)
      ensures sent == old(sent)
    {
      if parsed.Some? && hasCallback {
        delivered := delivered + [parsed.value];
      }
    }

    /** A reconnect timer firing runs `connect` again. */
    method ReconnectFires(t: nat, created: bool)
      requires Valid()
      requires t in pending
      modifies this
      ensures Valid()
      ensures pending == old(pending) - {t}
      ensures signedIn && created ==>
        sockets == old(sockets) + [Sock(Connecting, Reconnecting, false)] && wsRef == Some(|old(sockets)|)
      ensures !(signedIn && created) ==> sockets == old(sockets) && wsRef == old(wsRef)
      ensures reconnectRef == old(reconnectRef) && nextTimer == old(nextTimer)
      ensures isConnected == old(isConnected) && sent == old(sent) && delivered == old(delivered)
    {
      pending := pending - {t};
      Connect(created);
    }

    /** `disconnect`: the remembered reconnect timer is cancelled, the
        current socket is closed with code 1000 and forgotten, and the hook
        is marked disconnected.  Closing a socket that is already closing
        or closed changes nothing. */
    method Disconnect()
      requires Valid()
      modifies this
      ensures Valid()
      ensures reconnectRef.Some? ==> pending == old(pending) - {reconnectRef.value}
      ensures reconnectRef.None? ==> pending == old(pending)
      ensures old(wsRef).Some? && old(sockets)[old(wsRef).value].state in {Connecting, Open} ==>
        sockets == old(sockets)[old(wsRef).value := old(sockets)[old(wsRef).value].(state := Closing)]
      ensures old(wsRef).None? || old(sockets)[old(wsRef).value].state in {Closing, Closed} ==>
        sockets == old(sockets)
      ensures wsRef == None && !isConnected
      ensures reconnectRef == old(reconnectRef) && nextTimer == old(nextTimer)
      ensures connectionError == old(connectionError) && sent == old(sent) && delivered == old(delivered)
    {
      if reconnectRef.Some? {
        pending := pending - {reconnectRef.value};
      }
      if wsRef.Some? {
        var i := wsRef.value;
        if sockets[i].state == Connecting || sockets[i].state == Open {
          sockets := sockets[i := sockets[i].(state := Closing)];
        }
        wsRef := None;
      }
      isConnected := false;
    }

    /** `sendMessage`: written on the current socket when it exists and is
        open, dropped otherwise (there is no queue). */
    method SendMessage(m: string)
      requires Valid()
      modifies this
      ensures Valid()
      ensures wsRef.Some? && sockets[wsRef.value].state == Open ==> sent == old(sent) + [Sent(wsRef.value, AppMessage(m))]
      ensures wsRef.None? || sockets[wsRef.value].state != Open ==> sent == old(sent)
      ensures sockets == old(sockets) && wsRef == old(wsRef) && pending == old(pending)
      ensures reconnectRef == old(reconnectRef) && nextTimer == old(nextTimer)
      ensures isConnected == old(isConnected) && connectionError == old(connectionError)
      ensures delivered == old(delivered)
    {
      if wsRef.Some? && sockets[wsRef.value].state == Open {
        sent := sent + [Sent(wsRef.value, AppMessage(m))];
      }
    }
  }
}
