/** The browser-side connection state machine `SocketPeer` (browser/index.js):
    a relay WebSocket to the pairing server, an optional direct WebRTC peer
    negotiated over it, the counters kept for both, and the timers that drive
    reconnection.  Transports, timers and listeners are abstract: a transport
    call is an `Action` appended to `actions`, an emitted event an `Event`
    appended to `events`, a pending `setTimeout` an entry of `timers`, and each
    callback a transport or timer can fire is a method of the class. */
module Client {
  import opened Protocol

  // ---------------------------------------------------------------------
  // Reconnect backoff (`_calcReconnectTimeout`)
  // ---------------------------------------------------------------------

  /** No reconnect delay exceeds 30 seconds. */
  const ReconnectCap: int := 30000

  /** The factor `Math.pow(2, attempts)`. */
  function Pow2(n: nat): (r: nat)
    ensures r >= 1
  {
    if n == 0 then 1 else 2 * Pow2(n - 1)
  }

  /** `_calcReconnectTimeout(attempts)`: `Math.min(2^attempts * reconnectDelay, 30000)`.
      The result is the smaller of the two operands. */
  function ReconnectTimeout(attempts: nat, reconnectDelay: int): (r: int)
    ensures r <= ReconnectCap && r <= Pow2(attempts) * reconnectDelay
    ensures r == ReconnectCap || r == Pow2(attempts) * reconnectDelay
  {
    var raw := Pow2(attempts) * reconnectDelay;
    if raw < ReconnectCap then raw else ReconnectCap
  }

  lemma {:induction false} Pow2Monotone(a: nat, b: nat)
    requires a <= b
    ensures Pow2(a) <= Pow2(b)
  {
    if a < b {
      Pow2Monotone(a, b - 1);
    }
  }

  /** A later attempt never waits less than an earlier one (for a
      non-negative base delay). */
  lemma ReconnectTimeoutMonotone(a: nat, b: nat, reconnectDelay: int)
    requires a <= b && 0 <= reconnectDelay
    ensures ReconnectTimeout(a, reconnectDelay) <= ReconnectTimeout(b, reconnectDelay)
  {
    Pow2Monotone(a, b);
    ScaleMonotone(Pow2(a), Pow2(b), reconnectDelay);
  }

  /** Scaling by a non-negative factor keeps the order. */
  lemma ScaleMonotone(x: int, y: int, k: int)
    requires x <= y && 0 <= k
    ensures x * k <= y * k
  {
  }

  /** Each further attempt doubles the delay until it reaches the cap. */
  lemma ReconnectTimeoutDoubles(a: nat, reconnectDelay: int)
    requires 0 <= reconnectDelay
    ensures var t := ReconnectTimeout(a, reconnectDelay);
            ReconnectTimeout(a + 1, reconnectDelay) == if 2 * t < ReconnectCap then 2 * t else ReconnectCap
  {
    assert Pow2(a + 1) * reconnectDelay == 2 * (Pow2(a) * reconnectDelay);
  }

  /** From the 15th attempt on, any positive base delay is capped. */
  lemma ReconnectTimeoutSaturates(a: nat, reconnectDelay: int)
    requires 15 <= a && 1 <= reconnectDelay
    ensures ReconnectTimeout(a, reconnectDelay) == ReconnectCap
  {
    Pow2Monotone(15, a);
    assert Pow2(15) == 32768;
    assert Pow2(a) * reconnectDelay >= Pow2(a);
  }

  // ---------------------------------------------------------------------
  // Vocabulary of the state machine
  // ---------------------------------------------------------------------

  /** `{success, error, attempt}` of `_connections.socket` and `_connections.rtc`. */
  datatype Counters = Counters(success: nat, error: nat, attempt: nat)

  /** The options the core reads; `autoconnect` is only read by the constructor. */
  datatype Options = Options(
    pairCode: Option<string>,
    url: string,
    reconnect: bool,
    reconnectDelay: int,
    timeout: int,
    autoconnect: bool)

  /** The constructor's defaults for options the caller leaves out. */
  const DefaultOptions := Options(None, "http://localhost", true, 1000, 0, true)

  /** The four callbacks handed to `setTimeout`. */
  datatype TimerKind =
    | AutoConnectTimer      // constructor: connect() after 0 ms
    | ConnectTimeoutTimer   // connect(): abort an attempt after `timeout` ms
    | SocketReconnectTimer  // socket close: connect() again after the backoff
    | RtcReconnectTimer     // peer close: re-upgrade after the backoff

  datatype Timer = Timer(kind: TimerKind, delay: int)

  /** The current SimplePeer object: its identity and its `destroyed` flag. */
  datatype PeerRef = PeerRef(id: nat, destroyed: bool)

  /** Calls the client makes on its transports, in order. */
  datatype Action =
    | SocketOpen(socket: nat, url: string)      // new WebSocket(url)
    | SocketSend(socket: nat, env: Envelope)    // socket.send(JSON.stringify(env))
    | SocketClose(socket: nat)                  // socket.close()
    | PeerCreate(peer: nat, initiator: bool)    // new SimplePeer({initiator})
    | PeerSignal(peer: nat, signal: Data)       // peer.signal(data)
    | PeerSend(peer: nat, payload: Data)        // peer.send(data)
    | PeerDestroy(peer: nat)                    // peer.destroy()

  /** What an error event carries. */
  datatype Cause =
    | PairCodeInUse(code: Option<string>)
    | ConnectionTimeout(ms: int)
    | SocketFailure
    | PeerFailure

  /** Events the client emits to its listeners, named after the source's event
      names.  `Message` is the re-emission of a received envelope under its own
      type (and the direct peer's `data`); `ParseError` and `Untyped` are the
      two emissions caused by a frame that is not JSON. */
  datatype Event =
    | ConnectAttempt | ReconnectAttempt
    | Connect | Reconnect
    | ConnectTimeout(cause: Cause)
    | Error(cause: Cause) | ConnectError(cause: Cause) | ReconnectError
    | UpgradeAttempt | Upgrade | UpgradeError(cause: Cause) | Downgrade
    | Message(name: string, data: Data)
    | ParseError | Untyped

  /** `url.replace(/^http/, 'ws')`. */
  function WsUrl(url: string): (r: string)
    ensures "http" <= url ==> |r| == |url| - 2 && r[..2] == "ws" && r[2..] == url[4..]
    ensures !("http" <= url) ==> r == url
  {
    if "http" <= url then "ws" + url[4..] else url
  }

  /** Only the leading `http` is replaced by `ws`; the rest of the URL is kept. */
  lemma WsUrlPrefix(rest: string)
    ensures WsUrl("http" + rest) == "ws" + rest
  {
    var url := "http" + rest;
    assert url[..4] == "http";
    assert url[4..] == rest;
  }

  /** The relay URL keeps its security: http becomes ws and https becomes wss. */
  lemma WsUrlSchemes(rest: string)
    ensures WsUrl("http://" + rest) == "ws://" + rest
    ensures WsUrl("https://" + rest) == "wss://" + rest
  {
    WsUrlPrefix("://" + rest);
    WsUrlPrefix("s://" + rest);
    assert "http://" + rest == "http" + ("://" + rest);
    assert "https://" + rest == "http" + ("s://" + rest);
    assert "ws" + ("://" + rest) == "ws://" + rest;
    assert "ws" + ("s://" + rest) == "wss://" + rest;
  }

  /** The data of a `pair` envelope: the code, or `null` when none was given. */
  function CodeData(code: Option<string>): Data
  {
    if code.Some? then Text(code.value) else Null
  }

  /** `data.initiator` in the `peer.found` handler: None when `data` is
      null or undefined (the read throws); a missing field reads as falsy. */
  function InitiatorOf(d: Data): (r: Option<bool>)
    ensures r.None? <==> d.Null? || d.Undefined?
    ensures d.PeerInfo? ==> r == Some(d.initiator)
    ensures !d.PeerInfo? && r.Some? ==> !r.value
  {
    match d
    case PeerInfo(b) => Some(b)
    case Undefined => None
    case Null => None
    case Text(_) => Some(false)
    case Opaque(_) => Some(false)
  }

  /** What `_send` puts on the wire: nothing when there is no socket. */
  function Sent(socket: Option<nat>, env: Envelope): seq<Action>
  {
    if socket.Some? then [SocketSend(socket.value, env)] else []
  }

  /** What `destroyPeer` does to the transport. */
  function Destroyed(peer: Option<PeerRef>): seq<Action>
  {
    if peer.Some? then [PeerDestroy(peer.value.id)] else []
  }

  /** The events of `_socketError(err)`. */
  function ErrorEvents(cause: Cause, successes: nat): seq<Event>
  {
    [Error(cause), ConnectError(cause)] + (if successes > 0 then [ReconnectError] else [])
  }

  /** The events at the end of `connect()`. */
  function AttemptEvents(successes: nat): seq<Event>
  {
    [ConnectAttempt] + (if successes > 0 then [ReconnectAttempt] else [])
  }

  /** The handles a `clearTimeout` of this slot cancels. */
  function Handles(slot: Option<nat>): set<nat>
  {
    if slot.Some? then {slot.value} else {}
  }

  /** The listeners the client registers on its own message types. */
  datatype Listener = OnPeerFound | OnRtcSignal | OnRtcConnect | OnBusy | NoListener

  /** Which listener, if any, a message type runs. */
  function ListenerOf(kind: string): (r: Listener)
    ensures r == OnPeerFound <==> kind == "peer.found"
    ensures r == OnRtcSignal <==> kind == "rtc.signal"
    ensures r == OnRtcConnect <==> kind == "rtc.connect"
    ensures r == OnBusy <==> kind == "busy"
  {
    if kind == "peer.found" then OnPeerFound
    else if kind == "rtc.signal" then OnRtcSignal
    else if kind == "rtc.connect" then OnRtcConnect
    else if kind == "busy" then OnBusy
    else NoListener
  }

  // ---------------------------------------------------------------------
  // SocketPeer
  // ---------------------------------------------------------------------

  class SocketPeer {
    const url: string
    const reconnectDelay: int
    const timeout: int
    var pairCode: Option<string>
    var reconnect: bool

    var socketStats: Counters      // _connections.socket
    var rtcStats: Counters         // _connections.rtc
    var socketConnected: bool
    var rtcConnected: bool
    var initiator: bool            // undefined until peer.found, which reads as false

    var socket: Option<nat>        // the current WebSocket, or null
    var peer: Option<PeerRef>      // the current SimplePeer, or null
    var nextSocket: nat            // WebSockets created so far
    var nextPeer: nat              // SimplePeers created so far

    var timers: map<nat, Timer>    // pending setTimeout callbacks, by handle
    var nextTimer: nat             // the handle the next setTimeout returns
    var connectTimeoutSlot: Option<nat>   // _socketConnectTimeout
    var socketReconnectSlot: Option<nat>  // _socketReconnectDelayTimeout
    var rtcReconnectSlot: Option<nat>     // _rtcReconnectTimeout

    var actions: seq<Action>
    var events: seq<Event>

    /** Handles are never reused, and the two reconnect timers are always
        cleared before they are set again: at most one of each is pending,
        and it is the one its slot names.  (The connect timeout has no such
        guarantee: `connect()` does not clear an earlier one.) */
    ghost predicate Valid()
      reads this`timers, this`nextTimer, this`socketReconnectSlot, this`rtcReconnectSlot
      reads this`peer, this`nextPeer, this`socket, this`nextSocket
    {
      && (forall h :: h in timers ==> h < nextTimer)
      && (forall h :: h in timers && timers[h].kind == SocketReconnectTimer ==> socketReconnectSlot == Some(h))
      && (forall h :: h in timers && timers[h].kind == RtcReconnectTimer ==> rtcReconnectSlot == Some(h))
      && (peer.Some? ==> peer.value.id < nextPeer)
      && (socket.Some? ==> socket.value < nextSocket)
    }

    /** The handles of the pending timers of one kind. */
    function Pending(kind: TimerKind): set<nat>
      reads this`timers
    {
      set h | h in timers && timers[h].kind == kind
    }

    /** `new SocketPeer(opts)` (browser/index.js:16-84). */
    constructor (opts: Options)
      ensures Valid()
      ensures url == opts.url && reconnectDelay == opts.reconnectDelay && timeout == opts.timeout
      ensures pairCode == opts.pairCode && reconnect == opts.reconnect
      ensures socketStats == Counters(0, 0, 0) && rtcStats == Counters(0, 0, 0)
      ensures !socketConnected && !rtcConnected && !initiator
      ensures socket == None && peer == None && nextSocket == 0 && nextPeer == 0
      ensures connectTimeoutSlot == None && socketReconnectSlot == None && rtcReconnectSlot == None
      ensures opts.autoconnect ==> timers == map[0 := Timer(AutoConnectTimer, 0)] && nextTimer == 1
      ensures !opts.autoconnect ==> timers == map[] && nextTimer == 0
      ensures actions == [] && events == []
    {
      url := opts.url;
      reconnectDelay := opts.reconnectDelay;
      timeout := opts.timeout;
      pairCode := opts.pairCode;
      reconnect := opts.reconnect;
      socketStats := Counters(0, 0, 0);
      rtcStats := Counters(0, 0, 0);
      socketConnected := false;
      rtcConnected := false;
      initiator := false;
      socket := None;
      peer := None;
      nextSocket := 0;
      nextPeer := 0;
      connectTimeoutSlot := None;
      socketReconnectSlot := None;
      rtcReconnectSlot := None;
      actions := [];
      events := [];
      if opts.autoconnect {
        timers := map[0 := Timer(AutoConnectTimer, 0)];
        nextTimer := 1;
      } else {
        timers := map[];
        nextTimer := 0;
      }
    }

    // --- timers -----------------------------------------------------------

    /** `clearTimeout(handle)`: a handle that already fired, or none, is ignored. */
    method ClearTimeout(handle: Option<nat>)
      modifies this`timers
      ensures timers == old(timers) - Handles(handle)
    {
      if handle.Some? {
        timers := timers - {handle.value};
      }
    }

    /** `setTimeout(callback, delay)` returns a handle never used before. */
    method SetTimeout(kind: TimerKind, delay: int) returns (h: nat)
      modifies this`timers, this`nextTimer
      ensures h == old(nextTimer) && nextTimer == h + 1
      ensures timers == old(timers)[h := Timer(kind, delay)]
    {
      h := nextTimer;
      timers := timers[h := Timer(kind, delay)];
      nextTimer := nextTimer + 1;
    }

    // --- relay socket -----------------------------------------------------

    /** `_send(type, data)`: one envelope on the current socket, or nothing
        (a warning) when there is none. */
    method SendEnvelope(kind: string, data: Data)
      modifies this`actions
      ensures actions == old(actions) + Sent(socket, Envelope(kind, data))
    {
      if socket.Some? {
        actions := actions + [SocketSend(socket.value, Envelope(kind, data))];
      }
    }

    /** `pair(pairCode)`: adopt the code if one is given, then send `pair`. */
    method Pair(code: Option<string>)
      modifies this`pairCode, this`actions
      ensures pairCode == if code.Some? then code else old(pairCode)
      ensures actions == old(actions) + Sent(socket, Envelope("pair", CodeData(pairCode)))
    {
      if code.Some? {
        pairCode := code;
      }
      SendEnvelope("pair", CodeData(pairCode));
    }

    /** `_socketError(err)`: one more socket error; attempt and success stay. */
    method SocketError(cause: Cause)
      modifies this`socketStats, this`events
      ensures socketStats == old(socketStats).(error := old(socketStats).error + 1)
      ensures events == old(events) + ErrorEvents(cause, socketStats.success)
    {
      socketStats := socketStats.(error := socketStats.error + 1);
      events := events + ErrorEvents(cause, socketStats.success);
    }

    /** `connect()`: counts the attempt first, even when the socket is
        already connected and nothing else happens.  Otherwise arms a connect
        timeout when `timeout` is set (an earlier one is not cleared), opens a
        fresh socket and announces the attempt. */
    method Connect()
      requires Valid()
      modifies this`socketStats, this`timers, this`nextTimer, this`connectTimeoutSlot,
               this`socket, this`nextSocket, this`actions, this`events
      ensures Valid()
      ensures socketStats == old(socketStats).(attempt := old(socketStats).attempt + 1)
      ensures socketConnected ==>
        && timers == old(timers) && nextTimer == old(nextTimer) && connectTimeoutSlot == old(connectTimeoutSlot)
        && socket == old(socket) && nextSocket == old(nextSocket)
        && actions == old(actions) && events == old(events)
      ensures !socketConnected ==>
        && socket == Some(old(nextSocket)) && nextSocket == old(nextSocket) + 1
        && actions == old(actions) + [SocketOpen(old(nextSocket), WsUrl(url))]
        && events == old(events) + AttemptEvents(socketStats.success)
      ensures !socketConnected && timeout != 0 ==>
        && connectTimeoutSlot == Some(old(nextTimer)) && nextTimer == old(nextTimer) + 1
        && timers == old(timers)[old(nextTimer) := Timer(ConnectTimeoutTimer, timeout)]
      ensures !socketConnected && timeout == 0 ==>
        timers == old(timers) && nextTimer == old(nextTimer) && connectTimeoutSlot == old(connectTimeoutSlot)
    {
      socketStats := socketStats.(attempt := socketStats.attempt + 1);
      if socketConnected {
        return;
      }
      if timeout != 0 {
        ArmConnectTimeout();
      }
      OpenSocket();
    }

    /** The connect timeout part of `connect()`. */
    method ArmConnectTimeout()
      requires Valid()
      modifies this`timers, this`nextTimer, this`connectTimeoutSlot
      ensures Valid()
      ensures connectTimeoutSlot == Some(old(nextTimer)) && nextTimer == old(nextTimer) + 1
      ensures timers == old(timers)[old(nextTimer) := Timer(ConnectTimeoutTimer, timeout)]
    {
      var h := SetTimeout(ConnectTimeoutTimer, timeout);
      connectTimeoutSlot := Some(h);
    }

    /** The socket part of `connect()`: a fresh WebSocket on the relay URL. */
    method OpenSocket()
      requires Valid()
      modifies this`socket, this`nextSocket, this`actions, this`events
      ensures Valid()
      ensures socket == Some(old(nextSocket)) && nextSocket == old(nextSocket) + 1
      ensures actions == old(actions) + [SocketOpen(old(nextSocket), WsUrl(url))]
      ensures events == old(events) + AttemptEvents(socketStats.success)
    {
      socket := Some(nextSocket);
      actions := actions + [SocketOpen(nextSocket, WsUrl(url))];
      nextSocket := nextSocket + 1;
      events := events + AttemptEvents(socketStats.success);
    }

    /** `socket.onopen`: send `pair` with the current code. */
    method OnSocketOpen()
      requires nextSocket > 0
      modifies this`pairCode, this`actions
      ensures pairCode == old(pairCode)
      ensures actions == old(actions) + Sent(socket, Envelope("pair", CodeData(pairCode)))
    {
      Pair(None);
    }

    /** `socket.onerror`: a socket error. */
    method OnSocketError()
      requires nextSocket > 0
      modifies this`socketStats, this`events
      ensures socketStats == old(socketStats).(error := old(socketStats).error + 1)
      ensures events == old(events) + ErrorEvents(SocketFailure, socketStats.success)
    {
      SocketError(SocketFailure);
    }

    /** `socket.onclose`: disconnected; with `reconnect` on, exactly one
        reconnect timer is pending afterwards, replacing any earlier one, with
        the backoff for the current attempt count. */
    method OnSocketClose()
      requires Valid() && nextSocket > 0
      modifies this`socketConnected, this`timers, this`nextTimer, this`socketReconnectSlot
      ensures Valid() && !socketConnected
      ensures reconnect ==>
        && socketReconnectSlot == Some(old(nextTimer)) && nextTimer == old(nextTimer) + 1
        && timers == (old(timers) - Handles(old(socketReconnectSlot)))[old(nextTimer) :=
                       Timer(SocketReconnectTimer, ReconnectTimeout(socketStats.attempt, reconnectDelay))]
        && Pending(SocketReconnectTimer) == {old(nextTimer)}
      ensures !reconnect ==>
        timers == old(timers) && nextTimer == old(nextTimer) && socketReconnectSlot == old(socketReconnectSlot)
    {
      socketConnected := false;
      if reconnect {
        RearmSocketReconnect(ReconnectTimeout(socketStats.attempt, reconnectDelay));
      }
    }

    /** Clear the pending socket-reconnect timer, if any, and set a new one. */
    method RearmSocketReconnect(delay: int)
      requires Valid()
      modifies this`timers, this`nextTimer, this`socketReconnectSlot
      ensures Valid()
      ensures socketReconnectSlot == Some(old(nextTimer)) && nextTimer == old(nextTimer) + 1
      ensures timers == (old(timers) - Handles(old(socketReconnectSlot)))[old(nextTimer) :=
                          Timer(SocketReconnectTimer, delay)]
      ensures Pending(SocketReconnectTimer) == {old(nextTimer)}
    {
      ClearTimeout(socketReconnectSlot);
      var h := SetTimeout(SocketReconnectTimer, delay);
      socketReconnectSlot := Some(h);
    }

    /** The connected part of the `peer.found` listener. */
    method SocketUp()
      requires Valid()
      modifies this`socketConnected, this`timers, this`socketStats, this`events
      ensures Valid() && socketConnected
      ensures socketStats == Counters(old(socketStats).success + 1, old(socketStats).error, 0)
      ensures timers == old(timers) - Handles(connectTimeoutSlot) - Handles(socketReconnectSlot)
      ensures Pending(SocketReconnectTimer) == {}
      ensures events == old(events) + [Event.Connect, Reconnect]
    {
      socketConnected := true;
      ClearTimeout(connectTimeoutSlot);
      ClearTimeout(socketReconnectSlot);
      socketStats := socketStats.(attempt := 0);
      socketStats := socketStats.(success := socketStats.success + 1);
      events := events + [Event.Connect];
      if socketStats.success > 0 {
        events := events + [Reconnect];
      }
    }

    /** What the `peer.found` listener does, with `before` the events up to
        its start.  Connected: attempt back to 0, one more success, connect
        timeout and reconnect timer cleared, `connect` and then `reconnect`
        emitted (every time, because `success` is already positive when it is
        tested).  The initiator asks its partner to start WebRTC and starts its
        own peer.  Data that is null or undefined throws after the counters are
        updated. */
    twostate predicate PeerFoundEffect(d: Data, o: Outcome, before: seq<Event>)
      reads this
    {
      && socketConnected
      && socketStats == Counters(old(socketStats).success + 1, old(socketStats).error, 0)
      && timers == old(timers) - Handles(connectTimeoutSlot) - Handles(socketReconnectSlot)
      && Pending(SocketReconnectTimer) == {}
      && RoleEffect(d, o, before + [Event.Connect, Reconnect])
    }

    /** The role part of the `peer.found` listener, with `before` the events
        up to the role check. */
    twostate predicate RoleEffect(d: Data, o: Outcome, before: seq<Event>)
      reads this
    {
      && (InitiatorOf(d).None? ==>
            && o == Threw && initiator == old(initiator) && events == before
            && actions == old(actions) && peer == old(peer) && nextPeer == old(nextPeer) && rtcStats == old(rtcStats))
      && (InitiatorOf(d) == Some(false) ==>
            && o == Completed && !initiator && events == before
            && actions == old(actions) && peer == old(peer) && nextPeer == old(nextPeer) && rtcStats == old(rtcStats))
      && (InitiatorOf(d) == Some(true) && rtcConnected ==>
            && o == Completed && initiator && events == before
            && actions == old(actions) + Sent(socket, Envelope("rtc.connect", Undefined))
            && peer == old(peer) && nextPeer == old(nextPeer) && rtcStats == old(rtcStats))
      && (InitiatorOf(d) == Some(true) && !rtcConnected ==>
            && o == Completed && initiator && events == before + [UpgradeAttempt]
            && actions == old(actions) + Sent(socket, Envelope("rtc.connect", Undefined)) + [PeerCreate(old(nextPeer), true)]
            && peer == Some(PeerRef(old(nextPeer), false)) && nextPeer == old(nextPeer) + 1
            && rtcStats == old(rtcStats).(attempt := old(rtcStats).attempt + 1))
    }

    /** The `peer.found` listener. */
    method PeerFound(d: Data) returns (o: Outcome)
      requires Valid()
      modifies this`socketConnected, this`timers, this`socketStats, this`events, this`initiator,
               this`actions, this`peer, this`nextPeer, this`rtcStats
      ensures Valid()
      ensures PeerFoundEffect(d, o, old(events))
    {
      SocketUp();
      o := TakeRole(d);
    }

    /** After connecting, `peer.found` reads the role from its data (throwing
        on null or undefined data); the initiator asks its partner to start
        WebRTC and starts its own peer. */
    method TakeRole(d: Data) returns (o: Outcome)
      requires Valid()
      modifies this`initiator, this`actions, this`peer, this`nextPeer, this`rtcStats, this`events
      ensures Valid()
      ensures RoleEffect(d, o, old(events))
    {
      var flag := InitiatorOf(d);
      if flag.None? {
        return Threw;
      }
      initiator := flag.value;
      if initiator {
        SendEnvelope("rtc.connect", Undefined);
        RtcInit();
      }
      o := Completed;
    }

    /** What the `busy` listener does, with `before` the events up to its
        start: the code is taken.  Counts a socket error, then closes the
        socket, which throws when there is none. */
    twostate predicate BusyEffect(o: Outcome, before: seq<Event>)
      reads this
    {
      && socketStats == old(socketStats).(error := old(socketStats).error + 1)
      && events == before + ErrorEvents(PairCodeInUse(pairCode), socketStats.success)
      && o == (if socket.Some? then Completed else Threw)
      && actions == old(actions) + (if socket.Some? then [SocketClose(socket.value)] else [])
    }

    /** The `busy` listener. */
    method Busy() returns (o: Outcome)
      modifies this`socketStats, this`events, this`actions
      ensures BusyEffect(o, old(events))
    {
      SocketError(PairCodeInUse(pairCode));
      if socket.None? {
        return Threw;
      }
      actions := actions + [SocketClose(socket.value)];
      o := Completed;
    }

    /** The socket-side state the relay handlers may change is as before. */
    twostate predicate SocketSideKept()
      reads this
    {
      socketConnected == old(socketConnected) && timers == old(timers)
      && socketStats == old(socketStats) && initiator == old(initiator)
    }

    /** The peer-side state is as before. */
    twostate predicate PeerSideKept()
      reads this
    {
      peer == old(peer) && nextPeer == old(nextPeer) && rtcStats == old(rtcStats)
    }

    /** `socket.onmessage`: a frame that is not JSON is emitted as an error
        object used as an event name, then as an event with no name.  An
        envelope is re-emitted under its own type, and the four types the
        client listens to then run their listener. */
    method OnSocketMessage(m: Incoming) returns (o: Outcome)
      requires Valid() && nextSocket > 0
      modifies this`socketConnected, this`timers, this`socketStats, this`events, this`initiator,
               this`actions, this`peer, this`nextPeer, this`rtcStats
      ensures Valid()
      ensures m.Malformed? ==>
        && o == Completed && events == old(events) + [ParseError, Untyped]
        && actions == old(actions) && SocketSideKept() && PeerSideKept()
      ensures m.Parsed? && ListenerOf(m.env.kind) == OnPeerFound ==>
        PeerFoundEffect(m.env.data, o, old(events) + [Message(m.env.kind, m.env.data)])
      ensures m.Parsed? && ListenerOf(m.env.kind) == OnRtcSignal ==>
        && o == Completed && events == old(events) + [Message(m.env.kind, m.env.data)]
        && actions == old(actions) + (if !rtcConnected && peer.Some? && !peer.value.destroyed
                                      then [PeerSignal(peer.value.id, m.env.data)] else [])
        && SocketSideKept() && PeerSideKept()
      ensures m.Parsed? && ListenerOf(m.env.kind) == OnRtcConnect ==>
        && o == Completed && SocketSideKept()
        && RtcInitEffect(old(events) + [Message(m.env.kind, m.env.data)])
      ensures m.Parsed? && ListenerOf(m.env.kind) == OnBusy ==>
        && BusyEffect(o, old(events) + [Message(m.env.kind, m.env.data)])
        && socketConnected == old(socketConnected) && timers == old(timers) && initiator == old(initiator)
        && PeerSideKept()
      ensures m.Parsed? && ListenerOf(m.env.kind) == NoListener ==>
        && o == Completed && events == old(events) + [Message(m.env.kind, m.env.data)]
        && actions == old(actions) && SocketSideKept() && PeerSideKept()
    {
      if m.Malformed? {
        events := events + [ParseError, Untyped];
        return Completed;
      }
      var env := m.env;
      o := Completed;
      match ListenerOf(env.kind)
      case OnPeerFound =>
        o := DeliverPeerFound(env);
      case OnRtcSignal =>
        events := events + [Message(env.kind, env.data)];
        RtcSignal(env.data);
      case OnRtcConnect =>
        DeliverRtcConnect(env);
      case OnBusy =>
        o := DeliverBusy(env);
      case NoListener =>
        events := events + [Message(env.kind, env.data)];
    }

    /** `emit(type, data)` of a `peer.found` envelope: logged, then the
        listener runs. */
    method DeliverPeerFound(env: Envelope) returns (o: Outcome)
      requires Valid()
      modifies this`socketConnected, this`timers, this`socketStats, this`events, this`initiator,
               this`actions, this`peer, this`nextPeer, this`rtcStats
      ensures Valid()
      ensures PeerFoundEffect(env.data, o, old(events) + [Message(env.kind, env.data)])
    {
      events := events + [Message(env.kind, env.data)];
      o := PeerFound(env.data);
    }

    /** `emit(type, data)` of an `rtc.connect` envelope. */
    method DeliverRtcConnect(env: Envelope)
      requires Valid()
      modifies this`peer, this`nextPeer, this`actions, this`rtcStats, this`events
      ensures Valid()
      ensures RtcInitEffect(old(events) + [Message(env.kind, env.data)])
    {
      events := events + [Message(env.kind, env.data)];
      RtcInit();
    }

    /** `emit(type, data)` of a `busy` envelope. */
    method DeliverBusy(env: Envelope) returns (o: Outcome)
      modifies this`socketStats, this`events, this`actions
      ensures BusyEffect(o, old(events) + [Message(env.kind, env.data)])
    {
      events := events + [Message(env.kind, env.data)];
      o := Busy();
    }

    // --- direct peer ------------------------------------------------------

    /** What `_rtcInit()` does, with `before` the events up to its start:
        nothing when already connected.  Otherwise a fresh peer replaces the
        current one, which is NOT destroyed, and one more rtc attempt is
        counted. */
    twostate predicate RtcInitEffect(before: seq<Event>)
      reads this
    {
      && (rtcConnected ==>
            && peer == old(peer) && nextPeer == old(nextPeer) && actions == old(actions)
            && rtcStats == old(rtcStats) && events == before)
      && (!rtcConnected ==>
            && peer == Some(PeerRef(old(nextPeer), false)) && nextPeer == old(nextPeer) + 1
            && actions == old(actions) + [PeerCreate(old(nextPeer), initiator)]
            && rtcStats == old(rtcStats).(attempt := old(rtcStats).attempt + 1)
            && events == before + [UpgradeAttempt])
    }

    /** `_rtcInit()`. */
    method RtcInit()
      requires Valid()
      modifies this`peer, this`nextPeer, this`actions, this`rtcStats, this`events
      ensures Valid()
      ensures RtcInitEffect(old(events))
    {
      if rtcConnected {
        return;
      }
      peer := Some(PeerRef(nextPeer, false));
      actions := actions + [PeerCreate(nextPeer, initiator)];
      nextPeer := nextPeer + 1;
      rtcStats := rtcStats.(attempt := rtcStats.attempt + 1);
      events := events + [UpgradeAttempt];
    }

    /** `_rtcSignal(data)`: an incoming signal reaches the peer only while
        not connected and the peer exists and is not destroyed. */
    method RtcSignal(d: Data)
      modifies this`actions
      ensures actions == old(actions) + (if !rtcConnected && peer.Some? && !peer.value.destroyed
                                         then [PeerSignal(peer.value.id, d)] else [])
    {
      if !rtcConnected && peer.Some? && !peer.value.destroyed {
        actions := actions + [PeerSignal(peer.value.id, d)];
      }
    }

    /** Peer `connect`: upgraded.  One more rtc success, attempt back to 0,
        re-upgrade timer cleared. */
    method OnPeerConnect()
      requires Valid() && nextPeer > 0
      modifies this`timers, this`rtcStats, this`rtcConnected, this`events
      ensures Valid() && rtcConnected
      ensures rtcStats == Counters(old(rtcStats).success + 1, old(rtcStats).error, 0)
      ensures timers == old(timers) - Handles(rtcReconnectSlot) && Pending(RtcReconnectTimer) == {}
      ensures events == old(events) + [Upgrade]
    {
      ClearTimeout(rtcReconnectSlot);
      rtcStats := rtcStats.(success := rtcStats.success + 1);
      rtcStats := rtcStats.(attempt := 0);
      rtcConnected := true;
      events := events + [Upgrade];
    }

    /** Peer `error`: one more rtc error. */
    method OnPeerError()
      requires nextPeer > 0
      modifies this`rtcStats, this`events
      ensures rtcStats == old(rtcStats).(error := old(rtcStats).error + 1)
      ensures events == old(events) + [UpgradeError(PeerFailure), Error(PeerFailure)]
    {
      rtcStats := rtcStats.(error := rtcStats.error + 1);
      events := events + [UpgradeError(PeerFailure), Error(PeerFailure)];
    }

    /** Peer `signal`: a local signal goes to the partner over the relay,
        but only while the direct channel is not connected. */
    method OnPeerSignal(d: Data)
      requires nextPeer > 0
      modifies this`actions
      ensures actions == old(actions) + (if rtcConnected then [] else Sent(socket, Envelope("rtc.signal", d)))
    {
      if rtcConnected {
        return;
      }
      SendEnvelope("rtc.signal", d);
    }

    /** Peer `data`: handed to the application as a `data` event. */
    method OnPeerData(d: Data)
      requires nextPeer > 0
      modifies this`events
      ensures events == old(events) + [Message("data", d)]
    {
      events := events + [Message("data", d)];
    }

    /** SimplePeer destroying itself (after a fatal error of its own): the
        current peer object reports `destroyed`. */
    method OnPeerSelfDestroy()
      requires Valid()
      modifies this`peer
      ensures Valid()
      ensures peer == if old(peer).Some? then Some(old(peer).value.(destroyed := true)) else None
    {
      if peer.Some? {
        peer := Some(peer.value.(destroyed := true));
      }
    }

    /** Peer `close`: downgrade.  The peer is destroyed and dropped; a
        re-upgrade timer with the rtc backoff replaces any earlier one only
        when the socket is connected, `reconnect` is on and this side is the
        initiator. */
    method OnPeerClose()
      requires Valid() && nextPeer > 0
      modifies this`peer, this`rtcConnected, this`actions, this`timers, this`nextTimer,
               this`rtcReconnectSlot, this`events
      ensures Valid()
      ensures peer == None && !rtcConnected
      ensures actions == old(actions) + Destroyed(old(peer))
      ensures events == old(events) + [Downgrade]
      ensures socketConnected && reconnect && initiator ==>
        && rtcReconnectSlot == Some(old(nextTimer)) && nextTimer == old(nextTimer) + 1
        && timers == (old(timers) - Handles(old(rtcReconnectSlot)))[old(nextTimer) :=
                       Timer(RtcReconnectTimer, ReconnectTimeout(rtcStats.attempt, reconnectDelay))]
        && Pending(RtcReconnectTimer) == {old(nextTimer)}
      ensures !(socketConnected && reconnect && initiator) ==>
        timers == old(timers) && nextTimer == old(nextTimer) && rtcReconnectSlot == old(rtcReconnectSlot)
    {
      DestroyPeer();
      if socketConnected {
        if reconnect && initiator {
          RearmRtcReconnect(ReconnectTimeout(rtcStats.attempt, reconnectDelay));
        }
      }
      events := events + [Downgrade];
    }

    /** Clear the pending re-upgrade timer, if any, and set a new one. */
    method RearmRtcReconnect(delay: int)
      requires Valid()
      modifies this`timers, this`nextTimer, this`rtcReconnectSlot
      ensures Valid()
      ensures rtcReconnectSlot == Some(old(nextTimer)) && nextTimer == old(nextTimer) + 1
      ensures timers == (old(timers) - Handles(old(rtcReconnectSlot)))[old(nextTimer) :=
                          Timer(RtcReconnectTimer, delay)]
      ensures Pending(RtcReconnectTimer) == {old(nextTimer)}
    {
      ClearTimeout(rtcReconnectSlot);
      var h := SetTimeout(RtcReconnectTimer, delay);
      rtcReconnectSlot := Some(h);
    }

    // --- public operations ------------------------------------------------

    /** `send(data)`: over the peer iff the direct channel is connected
        (throwing if the peer is gone), otherwise one `data` envelope on the
        relay, or nothing without a socket. */
    method Send(d: Data) returns (o: Outcome)
      modifies this`actions
      ensures rtcConnected && peer.Some? ==> o == Completed && actions == old(actions) + [PeerSend(peer.value.id, d)]
      ensures rtcConnected && peer.None? ==> o == Threw && actions == old(actions)
      ensures !rtcConnected ==> o == Completed && actions == old(actions) + Sent(socket, Envelope("data", d))
    {
      if rtcConnected {
        if peer.None? {
          return Threw;
        }
        actions := actions + [PeerSend(peer.value.id, d)];
      } else {
        SendEnvelope("data", d);
      }
      o := Completed;
    }

    /** `destroyPeer()`: destroy and drop the peer; not upgraded any more. */
    method DestroyPeer()
      requires Valid()
      modifies this`peer, this`rtcConnected, this`actions
      ensures Valid()
      ensures peer == None && !rtcConnected
      ensures actions == old(actions) + Destroyed(old(peer))
    {
      if peer.Some? {
        actions := actions + [PeerDestroy(peer.value.id)];
      }
      peer := None;
      rtcConnected := false;
    }

    /** `close()`: destroy the peer, then close the socket (which stays the
        current socket until its `onclose`). */
    method Close()
      requires Valid()
      modifies this`peer, this`rtcConnected, this`actions
      ensures Valid()
      ensures peer == None && !rtcConnected
      ensures actions == old(actions) + Destroyed(old(peer)) + (if socket.Some? then [SocketClose(socket.value)] else [])
    {
      DestroyPeer();
      if socket.Some? {
        actions := actions + [SocketClose(socket.value)];
      }
    }

    /** `destroy()`: reconnection off, both transports closed and dropped,
        both flags down, the three timers the slots name cancelled: no
        reconnect or re-upgrade timer is left.  An earlier connect timeout
        or the autoconnect timer can still be pending. */
    method Destroy()
      requires Valid()
      modifies this`reconnect, this`peer, this`rtcConnected, this`actions, this`socket,
               this`socketConnected, this`timers
      ensures Valid()
      ensures !reconnect && peer == None && socket == None && !socketConnected && !rtcConnected
      ensures actions == old(actions) + Destroyed(old(peer))
                         + (if old(socket).Some? then [SocketClose(old(socket).value)] else [])
      ensures timers == old(timers) - Handles(connectTimeoutSlot) - Handles(socketReconnectSlot)
                                    - Handles(rtcReconnectSlot)
      ensures Pending(SocketReconnectTimer) == {} && Pending(RtcReconnectTimer) == {}
    {
      reconnect := false;
      Close();
      peer := None;
      socket := None;
      socketConnected := false;
      rtcConnected := false;
      CancelTimers();
    }

    /** The three timers the slots name are cleared; the slots keep their
        (now stale) handles. */
    method CancelTimers()
      requires Valid()
      modifies this`timers
      ensures Valid()
      ensures timers == old(timers) - Handles(connectTimeoutSlot) - Handles(socketReconnectSlot)
                                    - Handles(rtcReconnectSlot)
      ensures Pending(SocketReconnectTimer) == {} && Pending(RtcReconnectTimer) == {}
    {
      ClearTimeout(connectTimeoutSlot);
      ClearTimeout(socketReconnectSlot);
      ClearTimeout(rtcReconnectSlot);
    }

    // --- timers firing ----------------------------------------------------

    /** The autoconnect or a socket-reconnect timer fires: `connect()`. */
    method FireConnectTimer(h: nat)
      requires Valid() && h in timers
      requires timers[h].kind == AutoConnectTimer || timers[h].kind == SocketReconnectTimer
      modifies this`socketStats, this`timers, this`nextTimer, this`connectTimeoutSlot,
               this`socket, this`nextSocket, this`actions, this`events
      ensures Valid() && h !in timers
      ensures socketStats == old(socketStats).(attempt := old(socketStats).attempt + 1)
      ensures socketConnected ==>
        && timers == old(timers) - {h} && nextTimer == old(nextTimer) && connectTimeoutSlot == old(connectTimeoutSlot)
        && socket == old(socket) && actions == old(actions) && events == old(events)
      ensures !socketConnected ==>
        && socket == Some(old(nextSocket)) && nextSocket == old(nextSocket) + 1
        && actions == old(actions) + [SocketOpen(old(nextSocket), WsUrl(url))]
        && events == old(events) + AttemptEvents(socketStats.success)
      ensures !socketConnected && timeout != 0 ==>
        && connectTimeoutSlot == Some(old(nextTimer)) && nextTimer == old(nextTimer) + 1
        && timers == (old(timers) - {h})[old(nextTimer) := Timer(ConnectTimeoutTimer, timeout)]
      ensures !socketConnected && timeout == 0 ==>
        timers == old(timers) - {h} && nextTimer == old(nextTimer) && connectTimeoutSlot == old(connectTimeoutSlot)
    {
      timers := timers - {h};
      Connect();
    }

    /** A connect timeout fires: close the current socket (throwing when there
        is none), emit `connect_timeout`, count a socket error.  Attempt and
        success are untouched. */
    method FireConnectTimeout(h: nat) returns (o: Outcome)
      requires Valid() && h in timers && timers[h].kind == ConnectTimeoutTimer
      modifies this`timers, this`actions, this`events, this`socketStats
      ensures Valid() && timers == old(timers) - {h}
      ensures socket.None? ==>
        o == Threw && actions == old(actions) && events == old(events) && socketStats == old(socketStats)
      ensures socket.Some? ==>
        && o == Completed
        && actions == old(actions) + [SocketClose(socket.value)]
        && socketStats == old(socketStats).(error := old(socketStats).error + 1)
        && events == old(events) + [ConnectTimeout(ConnectionTimeout(timeout))]
                                 + ErrorEvents(ConnectionTimeout(timeout), socketStats.success)
    {
      timers := timers - {h};
      if socket.None? {
        return Threw;
      }
      actions := actions + [SocketClose(socket.value)];
      events := events + [ConnectTimeout(ConnectionTimeout(timeout))];
      SocketError(ConnectionTimeout(timeout));
      o := Completed;
    }

    /** The re-upgrade timer fires: ask the partner to start WebRTC, then
        `_rtcInit()`. */
    method FireRtcReconnect(h: nat)
      requires Valid() && h in timers && timers[h].kind == RtcReconnectTimer
      modifies this`timers, this`peer, this`nextPeer, this`actions, this`rtcStats, this`events
      ensures Valid() && timers == old(timers) - {h}
      ensures Pending(RtcReconnectTimer) == {}
      ensures rtcConnected ==>
        && peer == old(peer) && nextPeer == old(nextPeer) && rtcStats == old(rtcStats) && events == old(events)
        && actions == old(actions) + Sent(socket, Envelope("rtc.connect", Undefined))
      ensures !rtcConnected ==>
        && peer == Some(PeerRef(old(nextPeer), false)) && nextPeer == old(nextPeer) + 1
        && actions == old(actions) + Sent(socket, Envelope("rtc.connect", Undefined))
                                   + [PeerCreate(old(nextPeer), initiator)]
        && rtcStats == old(rtcStats).(attempt := old(rtcStats).attempt + 1)
        && events == old(events) + [UpgradeAttempt]
    {
      timers := timers - {h};
      SendEnvelope("rtc.connect", Undefined);
      RtcInit();
    }
  }
}
