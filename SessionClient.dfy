/**
 * The module-level socket session client of the chat front-end
 * (`src/services/websocketService.js`): one shared socket, a handshake sent from a
 * 100 ms polling interval once the socket is open, dispatch of inbound frames to
 * three single-slot listeners, and a reconnect with linear back-off after a close or
 * error that the client did not ask for.
 *
 * The browser is abstracted: every socket the client ever created is a record in
 * `sockets` (its index is its identity) holding its readyState and what its handlers
 * closed over; the handlers of a socket that has been replaced stay attached, so its
 * events still run the same handler code. Pending `setInterval`/`setTimeout` timers
 * sit in `timers` under their handle and run when the environment calls `FireTimer`.
 * What the client makes observable (frames sent, callbacks invoked, the give-up
 * message) is appended to `effects`.
 */
module SessionClient {
  import opened Wrappers
  import opened Frames

  /** The socket's `readyState`. */
  datatype ReadyState = Connecting | Open | Closing | Closed

  /**
   * The `onHandshakeSuccess` argument of `connect`: absent, a UI callback known by its
   * identity, or the closure `sendMessage` passes (send `payload` if the socket is open).
   */
  datatype Continuation = NoCallback | Callback(id: nat) | SendWhenOpen(payload: Outbound)

  /** One socket and the values its handlers closed over. */
  datatype SocketRecord = SocketRecord(ready: ReadyState, onHandshakeSuccess: Continuation, handshake: Outbound)

  /** A pending timer: the handshake poll interval of a socket, or a reconnect timeout. */
  datatype Timer = HandshakePoll(owner: nat) | ReconnectTimer(delay: nat)

  /** What the client makes observable. */
  datatype Effect =
    | Sent(socket: nat, frame: Outbound)
    | HandshakeCallback(id: nat)
    | MessageCallback(id: nat, data: Inbound)
    | TimeoutCallback(id: nat)
    | WarningCallback(id: nat, text: string)
    | GaveUp                                   // "Max reconnect attempts reached."

  const MaxReconnectAttempts: nat := 3
  const ReconnectStepMs: nat := 1000
  const HandshakePollMs: nat := 100
  const SessionTimedOut := "Session timed out."

  /** The handshake frame `connect` builds for `user`, with its fixed defaults. */
  function HandshakePayload(user: Option<User>): (f: Outbound)
    ensures f.Handshake?
    ensures user.None? ==> f == Handshake("default_token", "storeops", "store manager", "")
    ensures user.Some? ==> f.userEmail == user.value.email
    ensures user.Some? && user.value.token != "" ==> f.token == user.value.token
    ensures user.Some? && user.value.brand != "" ==> f.brand == user.value.brand
    ensures user.Some? && user.value.role != "" ==> f.role == user.value.role
  {
    match user
    case None => Handshake("default_token", "storeops", "store manager", "")
    case Some(u) =>
      Handshake(if u.token != "" then u.token else "default_token",
                if u.brand != "" then u.brand else "storeops",
                if u.role != "" then u.role else "store manager",
                u.email)
  }

  /** `socket.close()`: a connecting or open socket starts closing; a closing or closed one is left as it is. */
  function CloseRequested(r: SocketRecord): (r': SocketRecord)
    ensures r'.ready in {Closing, Closed}
    ensures r'.onHandshakeSuccess == r.onHandshakeSuccess && r'.handshake == r.handshake
  {
    match r.ready
    case Connecting => r.(ready := Closing)
    case Open => r.(ready := Closing)
    case _ => r
  }

  /** What calling `onHandshakeSuccess` does, given the current socket and whether it is open. */
  function Invocation(c: Continuation, current: Option<nat>, open: bool): (es: seq<Effect>)
    ensures c.NoCallback? ==> es == []
    ensures c.Callback? ==> es == [HandshakeCallback(c.id)]
    ensures c.SendWhenOpen? ==> es == if open && current.Some? then [Sent(current.value, c.payload)] else []
  {
    match c
    case NoCallback => []
    case Callback(id) => [HandshakeCallback(id)]
    case SendWhenOpen(p) => if open && current.Some? then [Sent(current.value, p)] else []
  }

  predicate IsHandshakeSuccess(f: Inbound) {
    f.action == "handshake" && f.status == "success"
  }

  predicate IsSessionTimeout(f: Inbound) {
    f.action == "error" && f.errorMessage == SessionTimedOut
  }

  predicate IsWarning(f: Inbound) {
    f.action == "warning" && f.warningMessage != ""
  }

  /** The listener effect of `slot` being called with `e`, or nothing when the slot is empty. */
  function Notify(slot: Option<nat>, e: nat -> Effect): seq<Effect> {
    if slot.Some? then [e(slot.value)] else []
  }

  /** The timers left after `clearInterval(h)` on an optional handle. */
  function Cleared(timers: map<nat, Timer>, h: Option<nat>): (r: map<nat, Timer>)
    ensures h.None? ==> r == timers
    ensures h.Some? ==> r == timers - {h.value}
  {
    if h.Some? then timers - {h.value} else timers
  }

  class Session {
    var sockets: seq<SocketRecord>
    var socket: Option<nat>
    var isConnected: bool
    var reconnectAttempts: nat
    var handshakeInterval: Option<nat>
    var intentionalDisconnect: bool
    var currentUser: Option<User>
    var onMessageCallback: Option<nat>
    var onSessionTimeoutCallback: Option<nat>
    var onWarningCallback: Option<nat>
    var timers: map<nat, Timer>
    var nextTimerId: nat
    var effects: seq<Effect>

    /**
     * The invariant the module keeps: only the current socket can be connecting or open;
     * the attempt counter stays within its bound; timer handles are fresh; and a pending
     * handshake poll is the one `handshakeInterval` holds, belongs to the current socket,
     * and that socket is open.
     */
    ghost predicate Valid()
      reads this
    {
      && (socket.Some? ==> socket.value < |sockets|)
      && (forall i :: 0 <= i < |sockets| && socket != Some(i) ==> sockets[i].ready in {Closing, Closed})
      && reconnectAttempts <= MaxReconnectAttempts
      && (forall h :: h in timers ==> h < nextTimerId)
      && (handshakeInterval.Some? ==> handshakeInterval.value in timers && timers[handshakeInterval.value].HandshakePoll?)
      && (forall h :: h in timers && timers[h].HandshakePoll? ==>
            && handshakeInterval == Some(h)
            && socket == Some(timers[h].owner)
            && timers[h].owner < |sockets|
            && sockets[timers[h].owner].ready == Open)
    }

    /** `isSocketOpen()`: a socket exists and its readyState is OPEN. */
    predicate SocketOpen()
      reads this
      requires Valid()
    {
      socket.Some? && sockets[socket.value].ready == Open
    }

    /** The module's initial state: no socket, no timers, no listeners. */
    constructor ()
      ensures Valid()
      ensures sockets == [] && socket == None && !isConnected && reconnectAttempts == 0
      ensures handshakeInterval == None && !intentionalDisconnect && currentUser == None
      ensures onMessageCallback == None && onSessionTimeoutCallback == None && onWarningCallback == None
      ensures timers == map[] && effects == []
    {
      sockets, socket, isConnected, reconnectAttempts := [], None, false, 0;
      handshakeInterval, intentionalDisconnect, currentUser := None, false, None;
      onMessageCallback, onSessionTimeoutCallback, onWarningCallback := None, None, None;
      timers, nextTimerId, effects := map[], 0, [];
    }

    /** Removes the handshake poll, if one is pending (`clearInterval(handshakeInterval)`). */
    method ClearHandshakeInterval()
      requires Valid()
      modifies this
      ensures Valid()
      ensures handshakeInterval == None && timers == Cleared(old(timers), old(handshakeInterval))
      ensures sockets == old(sockets) && socket == old(socket) && isConnected == old(isConnected)
      ensures reconnectAttempts == old(reconnectAttempts) && intentionalDisconnect == old(intentionalDisconnect)
      ensures currentUser == old(currentUser) && nextTimerId == old(nextTimerId) && effects == old(effects)
      ensures onMessageCallback == old(onMessageCallback) && onWarningCallback == old(onWarningCallback)
      ensures onSessionTimeoutCallback == old(onSessionTimeoutCallback)
      ensures forall h :: h in timers ==> timers[h].ReconnectTimer?
    {
      if handshakeInterval.Some? {
        timers := timers - {handshakeInterval.value};
        handshakeInterval := None;
      }
    }

    /**
     * `connect(user, onHandshakeSuccess)`. With a connected flag and an open socket it only
     * calls the continuation. Otherwise it closes and drops the current socket (without
     * setting `intentionalDisconnect`, so that socket's close event will ask for a
     * reconnect), clears the handshake poll, and creates exactly one new socket that
     * carries the handshake built from `user`.
     */
    method Connect(user: Option<User>, onHandshakeSuccess: Continuation)
      requires Valid()
      modifies this
      ensures Valid()
      ensures currentUser == user
      ensures isConnected == old(isConnected) && reconnectAttempts == old(reconnectAttempts)
      ensures intentionalDisconnect == old(intentionalDisconnect)
      ensures onMessageCallback == old(onMessageCallback) && onWarningCallback == old(onWarningCallback)
      ensures onSessionTimeoutCallback == old(onSessionTimeoutCallback)
      ensures old(isConnected && SocketOpen()) ==>
        && sockets == old(sockets) && socket == old(socket) && timers == old(timers)
        && handshakeInterval == old(handshakeInterval) && nextTimerId == old(nextTimerId)
        && effects == old(effects) + Invocation(onHandshakeSuccess, socket, true)
      ensures !old(isConnected && SocketOpen()) ==>
        && |sockets| == |old(sockets)| + 1
        && sockets[|old(sockets)|] == SocketRecord(Connecting, onHandshakeSuccess, HandshakePayload(user))
        && (forall i :: 0 <= i < |old(sockets)| ==>
              sockets[i] == if old(socket) == Some(i) then CloseRequested(old(sockets[i])) else old(sockets[i]))
        && socket == Some(|old(sockets)|)
        && handshakeInterval == None && timers == Cleared(old(timers), old(handshakeInterval))
        && nextTimerId == old(nextTimerId) && effects == old(effects)
    {
      currentUser := user;
      if isConnected && SocketOpen() {
        effects := effects + Invocation(onHandshakeSuccess, socket, true);
        return;
      }
      ReplaceSocket(onHandshakeSuccess);
    }

    /** The second half of `connect`: close and drop the current socket, clear the poll, create a socket. */
    method ReplaceSocket(onHandshakeSuccess: Continuation)
      requires Valid()
      modifies this
      ensures Valid()
      ensures |sockets| == |old(sockets)| + 1
      ensures sockets[|old(sockets)|] == SocketRecord(Connecting, onHandshakeSuccess, HandshakePayload(currentUser))
      ensures forall i :: 0 <= i < |old(sockets)| ==>
        sockets[i] == if old(socket) == Some(i) then CloseRequested(old(sockets[i])) else old(sockets[i])
      ensures socket == Some(|old(sockets)|)
      ensures handshakeInterval == None && timers == Cleared(old(timers), old(handshakeInterval))
      ensures nextTimerId == old(nextTimerId) && effects == old(effects) && currentUser == old(currentUser)
      ensures isConnected == old(isConnected) && reconnectAttempts == old(reconnectAttempts)
      ensures intentionalDisconnect == old(intentionalDisconnect)
      ensures onMessageCallback == old(onMessageCallback) && onWarningCallback == old(onWarningCallback)
      ensures onSessionTimeoutCallback == old(onSessionTimeoutCallback)
    {
      ClearHandshakeInterval();
      if socket.Some? {
        sockets := sockets[socket.value := CloseRequested(sockets[socket.value])];
        socket := None;
      }
      var payload := HandshakePayload(currentUser);
      sockets := sockets + [SocketRecord(Connecting, onHandshakeSuccess, payload)];
      socket := Some(|sockets| - 1);
    }

    /**
     * The `onopen` handler of socket `sid`: sets the connected flag and starts the
     * 100 ms handshake poll. Only the current socket can still be connecting.
     */
    method HandleOpen(sid: nat)
      requires Valid()
      requires sid < |sockets| && sockets[sid].ready == Connecting
      modifies this
      ensures Valid()
      ensures old(socket) == Some(sid)
      ensures sockets == old(sockets)[sid := old(sockets[sid]).(ready := Open)]
      ensures isConnected && handshakeInterval == Some(old(nextTimerId))
      ensures timers == old(timers)[old(nextTimerId) := HandshakePoll(sid)] && nextTimerId == old(nextTimerId) + 1
      ensures socket == old(socket) && reconnectAttempts == old(reconnectAttempts)
      ensures intentionalDisconnect == old(intentionalDisconnect) && currentUser == old(currentUser)
      ensures onMessageCallback == old(onMessageCallback) && onWarningCallback == old(onWarningCallback)
      ensures onSessionTimeoutCallback == old(onSessionTimeoutCallback) && effects == old(effects)
    {
      sockets := sockets[sid := sockets[sid].(ready := Open)];
      isConnected := true;
      timers := timers[nextTimerId := HandshakePoll(sid)];
      handshakeInterval := Some(nextTimerId);
      nextTimerId := nextTimerId + 1;
    }

    /**
     * The `onmessage` handler of socket `sid` (only an open socket delivers frames).
     * A handshake-success frame sets the connected flag, resets the attempt counter and
     * calls that socket's `onHandshakeSuccess`, and then (there is no `return`) also reaches
     * the message listener. A session-timeout frame clears the connected flag and reaches
     * only the timeout listener; a warning frame reaches only the warning listener; any
     * other frame reaches the message listener.
     */
    method HandleMessage(sid: nat, frame: Inbound)
      requires Valid()
      requires sid < |sockets| && sockets[sid].ready == Open
      modifies this
      ensures Valid()
      ensures sockets == old(sockets) && socket == old(socket) && timers == old(timers)
      ensures handshakeInterval == old(handshakeInterval) && nextTimerId == old(nextTimerId)
      ensures intentionalDisconnect == old(intentionalDisconnect) && currentUser == old(currentUser)
      ensures onMessageCallback == old(onMessageCallback) && onWarningCallback == old(onWarningCallback)
      ensures onSessionTimeoutCallback == old(onSessionTimeoutCallback)
      ensures IsHandshakeSuccess(frame) ==>
        && isConnected && reconnectAttempts == 0
        && effects == old(effects) + Invocation(sockets[sid].onHandshakeSuccess, socket, true)
                      + Notify(onMessageCallback, (id: nat) => MessageCallback(id, frame))
      ensures IsSessionTimeout(frame) ==>
        && !isConnected && reconnectAttempts == old(reconnectAttempts)
        && effects == old(effects) + Notify(onSessionTimeoutCallback, (id: nat) => TimeoutCallback(id))
      ensures IsWarning(frame) ==>
        && isConnected == old(isConnected) && reconnectAttempts == old(reconnectAttempts)
        && effects == old(effects) + Notify(onWarningCallback, (id: nat) => WarningCallback(id, frame.warningMessage))
      ensures !IsHandshakeSuccess(frame) && !IsSessionTimeout(frame) && !IsWarning(frame) ==>
        && isConnected == old(isConnected) && reconnectAttempts == old(reconnectAttempts)
        && effects == old(effects) + Notify(onMessageCallback, (id: nat) => MessageCallback(id, frame))
    {
      if frame.action == "handshake" && frame.status == "success" {
        isConnected := true;
        reconnectAttempts := 0;
        effects := effects + Invocation(sockets[sid].onHandshakeSuccess, socket, SocketOpen());
      }
      if frame.action == "error" && frame.errorMessage == SessionTimedOut {
        isConnected := false;
        if onSessionTimeoutCallback.Some? {
          effects := effects + [TimeoutCallback(onSessionTimeoutCallback.value)];
        }
        return;
      }
      if frame.action == "warning" && frame.warningMessage != "" {
        if onWarningCallback.Some? {
          effects := effects + [WarningCallback(onWarningCallback.value, frame.warningMessage)];
        }
        return;
      }
      if onMessageCallback.Some? {
        effects := effects + [MessageCallback(onMessageCallback.value, frame)];
      }
    }

    /**
     * The `onclose` handler of socket `sid` (of any socket the client created, current or
     * replaced): clears the connected flag and the handshake poll, asks for a reconnect
     * unless the close was intentional, and always resets the intentional flag.
     */
    method HandleClose(sid: nat)
      requires Valid()
      requires sid < |sockets|
      modifies this
      ensures Valid()
      ensures ClosedByEvent(sid)
    {
      HandleClosure(sid);
    }

    /** The `onerror` handler: the same code as `onclose`. */
    method HandleError(sid: nat)
      requires Valid()
      requires sid < |sockets|
      modifies this
      ensures Valid()
      ensures ClosedByEvent(sid)
    {
      HandleClosure(sid);
    }

    /** The state after the close or error event of socket `sid` has been handled. */
    twostate predicate ClosedByEvent(sid: nat)
      reads this
    {
      && sid < |old(sockets)|
      && sockets == old(sockets)[sid := old(sockets[sid]).(ready := Closed)]
      && socket == old(socket) && !isConnected && handshakeInterval == None
      && !intentionalDisconnect && currentUser == old(currentUser)
      && onMessageCallback == old(onMessageCallback) && onWarningCallback == old(onWarningCallback)
      && onSessionTimeoutCallback == old(onSessionTimeoutCallback)
      && (old(intentionalDisconnect) ==>
            && reconnectAttempts == old(reconnectAttempts) && nextTimerId == old(nextTimerId)
            && timers == Cleared(old(timers), old(handshakeInterval)) && effects == old(effects))
      && (!old(intentionalDisconnect) && old(reconnectAttempts) >= MaxReconnectAttempts ==>
            && reconnectAttempts == old(reconnectAttempts) && nextTimerId == old(nextTimerId)
            && timers == Cleared(old(timers), old(handshakeInterval)) && effects == old(effects) + [GaveUp])
      && (!old(intentionalDisconnect) && old(reconnectAttempts) < MaxReconnectAttempts ==>
            && reconnectAttempts == old(reconnectAttempts) + 1 && nextTimerId == old(nextTimerId) + 1
            && timers == Cleared(old(timers), old(handshakeInterval))[old(nextTimerId) :=
                 ReconnectTimer(ReconnectStepMs * reconnectAttempts)]
            && effects == old(effects))
    }

    method HandleClosure(sid: nat)
      requires Valid()
      requires sid < |sockets|
      modifies this
      ensures Valid()
      ensures ClosedByEvent(sid)
    {
      ClearHandshakeInterval();
      sockets := sockets[sid := sockets[sid].(ready := Closed)];
      isConnected := false;
      if !intentionalDisconnect {
        Reconnect();
      }
      intentionalDisconnect := false;
    }

    /**
     * `reconnect()`: once three attempts have been made it only reports giving up;
     * otherwise it counts one more attempt and schedules exactly one `connect` with the
     * stored user after 1000 ms times the new count. The handle of that timeout is not kept.
     */
    method Reconnect()
      requires Valid()
      modifies this
      ensures Valid()
      ensures old(reconnectAttempts) >= MaxReconnectAttempts ==>
        && reconnectAttempts == old(reconnectAttempts) && timers == old(timers)
        && nextTimerId == old(nextTimerId) && effects == old(effects) + [GaveUp]
      ensures old(reconnectAttempts) < MaxReconnectAttempts ==>
        && reconnectAttempts == old(reconnectAttempts) + 1
        && timers == old(timers)[old(nextTimerId) := ReconnectTimer(ReconnectStepMs * reconnectAttempts)]
        && nextTimerId == old(nextTimerId) + 1 && effects == old(effects)
      ensures sockets == old(sockets) && socket == old(socket) && isConnected == old(isConnected)
      ensures handshakeInterval == old(handshakeInterval) && intentionalDisconnect == old(intentionalDisconnect)
      ensures currentUser == old(currentUser)
      ensures onMessageCallback == old(onMessageCallback) && onWarningCallback == old(onWarningCallback)
      ensures onSessionTimeoutCallback == old(onSessionTimeoutCallback)
    {
      if reconnectAttempts >= MaxReconnectAttempts {
        effects := effects + [GaveUp];
        return;
      }
      reconnectAttempts := reconnectAttempts + 1;
      timers := timers[nextTimerId := ReconnectTimer(ReconnectStepMs * reconnectAttempts)];
      nextTimerId := nextTimerId + 1;
    }

    /**
     * Runs the pending timer `h`. The handshake poll finds its socket open, stops itself
     * and sends that socket's handshake frame. A reconnect timeout calls `connect` with
     * whatever user is stored at that moment, and no handshake continuation.
     */
    method FireTimer(h: nat)
      requires Valid()
      requires h in timers
      modifies this
      ensures Valid()
      ensures old(timers[h]).HandshakePoll? ==>
        && timers == old(timers) - {h} && handshakeInterval == None && nextTimerId == old(nextTimerId)
        && effects == old(effects) + [Sent(old(timers[h]).owner, old(sockets[timers[h].owner].handshake))]
        && sockets == old(sockets) && socket == old(socket)
      ensures old(timers[h]).ReconnectTimer? && old(isConnected && SocketOpen()) ==>
        && sockets == old(sockets) && socket == old(socket)
        && timers == old(timers) - {h} && handshakeInterval == old(handshakeInterval)
        && nextTimerId == old(nextTimerId) && effects == old(effects)
      ensures old(timers[h]).ReconnectTimer? && !old(isConnected && SocketOpen()) ==>
        && |sockets| == |old(sockets)| + 1
        && sockets[|old(sockets)|] == SocketRecord(Connecting, NoCallback, HandshakePayload(old(currentUser)))
        && (forall i :: 0 <= i < |old(sockets)| ==>
              sockets[i] == if old(socket) == Some(i) then CloseRequested(old(sockets[i])) else old(sockets[i]))
        && socket == Some(|old(sockets)|)
        && handshakeInterval == None && timers == Cleared(old(timers) - {h}, old(handshakeInterval))
        && nextTimerId == old(nextTimerId) && effects == old(effects)
      ensures reconnectAttempts == old(reconnectAttempts) && currentUser == old(currentUser)
      ensures isConnected == old(isConnected) && intentionalDisconnect == old(intentionalDisconnect)
      ensures onMessageCallback == old(onMessageCallback) && onWarningCallback == old(onWarningCallback)
      ensures onSessionTimeoutCallback == old(onSessionTimeoutCallback)
    {
      match timers[h]
      case HandshakePoll(owner) =>
        if socket.Some? && sockets[socket.value].ready == Open {
          ClearHandshakeInterval();
          effects := effects + [Sent(socket.value, sockets[owner].handshake)];
        }
      case ReconnectTimer(_) =>
        timers := timers - {h};
        Connect(currentUser, NoCallback);
    }

    /**
     * `sendMessage(payload)`: sends on an open socket; otherwise connects with the stored
     * user and a continuation that sends `payload` once the handshake succeeds and the
     * socket is open.
     */
    method SendMessage(payload: Outbound)
      requires Valid()
      modifies this
      ensures Valid()
      ensures old(SocketOpen()) ==>
        && sockets == old(sockets) && socket == old(socket) && timers == old(timers)
        && handshakeInterval == old(handshakeInterval) && nextTimerId == old(nextTimerId)
        && effects == old(effects) + [Sent(socket.value, payload)]
      ensures !old(SocketOpen()) ==>
        && |sockets| == |old(sockets)| + 1
        && sockets[|old(sockets)|] == SocketRecord(Connecting, SendWhenOpen(payload), HandshakePayload(old(currentUser)))
        && (forall i :: 0 <= i < |old(sockets)| ==>
              sockets[i] == if old(socket) == Some(i) then CloseRequested(old(sockets[i])) else old(sockets[i]))
        && socket == Some(|old(sockets)|)
        && handshakeInterval == None && timers == Cleared(old(timers), old(handshakeInterval))
        && nextTimerId == old(nextTimerId) && effects == old(effects)
      ensures currentUser == old(currentUser) && reconnectAttempts == old(reconnectAttempts)
      ensures isConnected == old(isConnected) && intentionalDisconnect == old(intentionalDisconnect)
      ensures onMessageCallback == old(onMessageCallback) && onWarningCallback == old(onWarningCallback)
      ensures onSessionTimeoutCallback == old(onSessionTimeoutCallback)
    {
      if SocketOpen() {
        effects := effects + [Sent(socket.value, payload)];
      } else {
        Connect(currentUser, SendWhenOpen(payload));
      }
    }

    /**
     * `disconnect()`: without a socket it does nothing. Otherwise it sets the intentional
     * flag, closes and drops the socket, clears the connected flag, the handshake poll and
     * the stored user. Pending reconnect timeouts are not cancelled: no handle was kept.
     */
    method Disconnect()
      requires Valid()
      modifies this
      ensures Valid()
      ensures old(socket).None? ==>
        && sockets == old(sockets) && socket == None && isConnected == old(isConnected)
        && intentionalDisconnect == old(intentionalDisconnect) && currentUser == old(currentUser)
        && timers == old(timers) && handshakeInterval == old(handshakeInterval)
      ensures old(socket).Some? ==>
        && sockets == old(sockets)[old(socket).value := CloseRequested(old(sockets[socket.value]))]
        && socket == None && !isConnected && intentionalDisconnect && currentUser == None
        && handshakeInterval == None && timers == Cleared(old(timers), old(handshakeInterval))
      ensures !SocketOpen()
      ensures forall h :: h in old(timers) && old(timers[h]).ReconnectTimer? ==> h in timers && timers[h] == old(timers[h])
      ensures reconnectAttempts == old(reconnectAttempts) && effects == old(effects) && nextTimerId == old(nextTimerId)
      ensures onMessageCallback == old(onMessageCallback) && onWarningCallback == old(onWarningCallback)
      ensures onSessionTimeoutCallback == old(onSessionTimeoutCallback)
    {
      if socket.Some? {
        ClearHandshakeInterval();
        intentionalDisconnect := true;
        sockets := sockets[socket.value := CloseRequested(sockets[socket.value])];
        socket := None;
        isConnected := false;
        currentUser := None;
      }
    }

    /** `onMessage(callback)`: the slot now holds `cb`, whatever it held. */
    method OnMessage(cb: nat)
      modifies this`onMessageCallback
      ensures onMessageCallback == Some(cb)
    {
      onMessageCallback := Some(cb);
    }

    /** `offMessage(callback)`: empties the slot only when it holds `cb`. */
    method OffMessage(cb: nat)
      modifies this`onMessageCallback
      ensures onMessageCallback == if old(onMessageCallback) == Some(cb) then None else old(onMessageCallback)
    {
      if onMessageCallback == Some(cb) {
        onMessageCallback := None;
      }
    }

    /** `onSessionTimeout(callback)`. */
    method OnSessionTimeout(cb: nat)
      modifies this`onSessionTimeoutCallback
      ensures onSessionTimeoutCallback == Some(cb)
    {
      onSessionTimeoutCallback := Some(cb);
    }

    /** `offSessionTimeout(callback)`. */
    method OffSessionTimeout(cb: nat)
      modifies this`onSessionTimeoutCallback
      ensures onSessionTimeoutCallback ==
        if old(onSessionTimeoutCallback) == Some(cb) then None else old(onSessionTimeoutCallback)
    {
      if onSessionTimeoutCallback == Some(cb) {
        onSessionTimeoutCallback := None;
      }
    }

    /** `onWarning(callback)`. */
    method OnWarning(cb: nat)
      modifies this`onWarningCallback
      ensures onWarningCallback == Some(cb)
    {
      onWarningCallback := Some(cb);
    }

    /** `offWarning(callback)`. */
    method OffWarning(cb: nat)
      modifies this`onWarningCallback
      ensures onWarningCallback == if old(onWarningCallback) == Some(cb) then None else old(onWarningCallback)
    {
      if onWarningCallback == Some(cb) {
        onWarningCallback := None;
      }
    }
  }

  /**
   * Only an open socket delivers frames, and in a valid state an open socket is the
   * current one: a handshake continuation always runs while `isSocketOpen()` holds.
   */
  lemma MessagesComeFromTheCurrentSocket(s: Session, sid: nat)
    requires s.Valid()
    requires sid < |s.sockets| && s.sockets[sid].ready == Open
    ensures s.socket == Some(sid) && s.SocketOpen()
  {
  }
}
