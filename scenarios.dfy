/** Concrete runs of the two state machines: the client lifecycles exercised
    by test/index.js, and the pairing server driven by message sequences. */
module Scenarios {
  import opened Protocol
  import opened Client
  import opened Broker

  const Host := "localhost:3000/socketpeer/"
  const TestUrl := "http://" + Host
  const RelayUrl := "ws://" + Host

  function TestOptions(reconnect: bool, timeout: int): Options
  {
    Options(Some("yolo"), TestUrl, reconnect, 1000, timeout, true)
  }

  // ---------------------------------------------------------------------
  // Client (test/index.js)
  // ---------------------------------------------------------------------

  /** A client with the test options whose autoconnect timer has fired: one
      attempt counted, the relay opened on the ws: URL, a connect timeout armed
      when one is set, `connect_attempt` emitted. */
  method AttemptingClient(reconnect: bool, timeout: int) returns (p: SocketPeer)
    ensures fresh(p) && p.Valid()
    ensures p.url == TestUrl && p.reconnectDelay == 1000 && p.timeout == timeout
    ensures p.pairCode == Some("yolo") && p.reconnect == reconnect
    ensures !p.socketConnected && p.socketStats == Counters(0, 0, 1)
    ensures p.socket == Some(0) && p.nextSocket == 1
    ensures timeout != 0 ==>
      p.timers == map[1 := Timer(ConnectTimeoutTimer, timeout)] && p.nextTimer == 2 && p.connectTimeoutSlot == Some(1)
    ensures timeout == 0 ==> p.timers == map[] && p.nextTimer == 1 && p.connectTimeoutSlot == None
    ensures p.socketReconnectSlot == None && p.rtcReconnectSlot == None
    ensures !p.initiator && !p.rtcConnected
    ensures p.peer == None && p.nextPeer == 0 && p.rtcStats == Counters(0, 0, 0)
    ensures p.events == [ConnectAttempt]
    ensures p.actions == [SocketOpen(0, RelayUrl)]
  {
    WsUrlSchemes(Host);
    p := new SocketPeer(TestOptions(reconnect, timeout));
    p.FireConnectTimer(0);
  }

  /** The autoconnect timer fires: one attempt, nothing else counted, the
      relay opened on the ws: URL, `connect_attempt` emitted. */
  method FirstConnectAttempt() returns (connected: bool, stats: Counters, emitted: seq<Event>, calls: seq<Action>)
    ensures !connected && stats == Counters(0, 0, 1)
    ensures emitted == [ConnectAttempt]
    ensures calls == [SocketOpen(0, RelayUrl)]
  {
    var p := AttemptingClient(false, 0);
    connected, stats, emitted, calls := p.socketConnected, p.socketStats, p.events, p.actions;
  }

  /** A client with the test options whose relay socket has opened and sent
      `pair` with the code. */
  method OpenedClient(reconnect: bool) returns (p: SocketPeer)
    ensures fresh(p) && p.Valid()
    ensures p.url == TestUrl && p.reconnectDelay == 1000 && p.timeout == 0
    ensures p.pairCode == Some("yolo") && p.reconnect == reconnect
    ensures !p.socketConnected && p.socketStats == Counters(0, 0, 1)
    ensures p.socket == Some(0) && p.nextSocket == 1
    ensures p.timers == map[] && p.nextTimer == 1
    ensures p.connectTimeoutSlot == None && p.socketReconnectSlot == None && p.rtcReconnectSlot == None
    ensures !p.initiator && !p.rtcConnected
    ensures p.peer == None && p.nextPeer == 0 && p.rtcStats == Counters(0, 0, 0)
    ensures p.events == [ConnectAttempt]
    ensures p.actions == [SocketOpen(0, RelayUrl), SocketSend(0, Envelope("pair", Text("yolo")))]
  {
    p := AttemptingClient(reconnect, 0);
    p.OnSocketOpen();
  }

  /** A client with the test options whose relay is up: the autoconnect
      fired, the socket opened and paired, and the server answered
      `peer.found`; an initiator has also asked its partner for WebRTC and
      started its peer. */
  method ConnectedClient(reconnect: bool, initiator: bool) returns (p: SocketPeer)
    ensures fresh(p) && p.Valid()
    ensures p.url == TestUrl && p.reconnectDelay == 1000 && p.timeout == 0
    ensures p.pairCode == Some("yolo") && p.reconnect == reconnect
    ensures p.socketConnected && p.socketStats == Counters(1, 0, 0)
    ensures p.socket == Some(0) && p.nextSocket == 1
    ensures p.timers == map[] && p.nextTimer == 1
    ensures p.connectTimeoutSlot == None && p.socketReconnectSlot == None && p.rtcReconnectSlot == None
    ensures p.initiator == initiator && !p.rtcConnected
    ensures p.events == [ConnectAttempt, Message("peer.found", PeerInfo(initiator)), Event.Connect, Reconnect]
                        + (if initiator then [UpgradeAttempt] else [])
    ensures p.actions == [SocketOpen(0, RelayUrl), SocketSend(0, Envelope("pair", Text("yolo")))]
                         + (if initiator then [SocketSend(0, Envelope("rtc.connect", Undefined)), PeerCreate(0, true)] else [])
    ensures initiator ==> p.peer == Some(PeerRef(0, false)) && p.nextPeer == 1 && p.rtcStats == Counters(0, 0, 1)
    ensures !initiator ==> p.peer == None && p.nextPeer == 0 && p.rtcStats == Counters(0, 0, 0)
  {
    p := OpenedClient(reconnect);
    var found := p.OnSocketMessage(Parsed(Envelope("peer.found", PeerInfo(initiator))));
  }

  /** Connected through the relay: the socket pairs with its code, the
      server's `peer.found` makes the client connected with one success and no
      pending attempt, and `send` goes over the relay as a `data` envelope. */
  method BasicLifecycle() returns (connected: bool, stats: Counters, emitted: seq<Event>, calls: seq<Action>)
    ensures connected && stats == Counters(1, 0, 0)
    ensures emitted == [ConnectAttempt, Message("peer.found", PeerInfo(false)), Event.Connect, Reconnect]
    ensures calls == [SocketOpen(0, RelayUrl), SocketSend(0, Envelope("pair", Text("yolo"))),
                      SocketSend(0, Envelope("data", Text("ping")))]
  {
    var p := ConnectedClient(false, false);
    var sent := p.Send(Text("ping"));
    connected, stats, emitted, calls := p.socketConnected, p.socketStats, p.events, p.actions;
  }

  /** A 500 ms timeout expires before the server answers: the socket is
      closed, `connect_timeout`, `error` and `connect_error` are emitted, one
      error and one attempt are counted; the close then arms the reconnect
      timer with the backoff for one attempt, 2 s. */
  method ConnectTimeoutExpires() returns (stats: Counters, emitted: seq<Event>, calls: seq<Action>, pending: map<nat, Timer>)
    ensures stats == Counters(0, 1, 1)
    ensures emitted == [ConnectAttempt, ConnectTimeout(ConnectionTimeout(500)),
                        Error(ConnectionTimeout(500)), ConnectError(ConnectionTimeout(500))]
    ensures calls == [SocketOpen(0, RelayUrl), SocketClose(0)]
    ensures pending == map[2 := Timer(SocketReconnectTimer, 2000)]
  {
    var p := AttemptingClient(true, 500);
    var timedOut := p.FireConnectTimeout(1);
    p.OnSocketClose();
    assert Pow2(1) == 2;
    stats, emitted, calls, pending := p.socketStats, p.events, p.actions, p.timers;
  }

  /** A connected client whose direct channel is up: the initiator started
      its peer on `peer.found`, the other side on its partner's
      `rtc.connect`; either way the first peer connected. */
  method UpgradedClient(reconnect: bool, initiator: bool) returns (p: SocketPeer)
    ensures fresh(p) && p.Valid()
    ensures p.url == TestUrl && p.reconnectDelay == 1000 && p.timeout == 0
    ensures p.pairCode == Some("yolo") && p.reconnect == reconnect
    ensures p.socketConnected && p.socketStats == Counters(1, 0, 0)
    ensures p.socket == Some(0) && p.nextSocket == 1
    ensures p.timers == map[] && p.nextTimer == 1
    ensures p.connectTimeoutSlot == None && p.socketReconnectSlot == None && p.rtcReconnectSlot == None
    ensures p.initiator == initiator && p.rtcConnected
    ensures p.peer == Some(PeerRef(0, false)) && p.nextPeer == 1 && p.rtcStats == Counters(1, 0, 0)
    ensures p.events == [ConnectAttempt, Message("peer.found", PeerInfo(initiator)), Event.Connect, Reconnect]
                        + (if initiator then [] else [Message("rtc.connect", Undefined)])
                        + [UpgradeAttempt, Upgrade]
    ensures p.actions == [SocketOpen(0, RelayUrl), SocketSend(0, Envelope("pair", Text("yolo")))]
                         + (if initiator then [SocketSend(0, Envelope("rtc.connect", Undefined)), PeerCreate(0, true)]
                            else [PeerCreate(0, false)])
  {
    p := ConnectedClient(reconnect, initiator);
    if !initiator {
      var asked := p.OnSocketMessage(Parsed(Envelope("rtc.connect", Undefined)));
    }
    p.OnPeerConnect();
  }

  /** The non-initiating side upgrades when its partner asks, receives data
      over the peer, drops the peer, and from then on `send` uses the relay. */
  method SendAfterDowngrade() returns (upgraded: bool, downgraded: bool, emitted: seq<Event>, calls: seq<Action>)
    ensures upgraded && downgraded
    ensures emitted == [ConnectAttempt, Message("peer.found", PeerInfo(false)), Event.Connect, Reconnect,
                        Message("rtc.connect", Undefined), UpgradeAttempt, Upgrade,
                        Message("data", Text("ping")), Downgrade]
    ensures calls == [SocketOpen(0, RelayUrl), SocketSend(0, Envelope("pair", Text("yolo"))),
                      PeerCreate(0, false), PeerDestroy(0), SocketSend(0, Envelope("data", Text("pong")))]
  {
    var p := UpgradedClient(false, false);
    upgraded := p.rtcConnected;
    p.OnPeerData(Text("ping"));
    p.DestroyPeer();
    p.OnPeerClose();
    downgraded := !p.rtcConnected;
    var sent := p.Send(Text("pong"));
    emitted, calls := p.events, p.actions;
  }

  /** A reconnecting client whose relay dropped after its first success:
      the reconnect timer waits the base delay, because the success reset
      the attempts. */
  method DroppedClient() returns (p: SocketPeer)
    ensures fresh(p) && p.Valid()
    ensures p.url == TestUrl && p.reconnectDelay == 1000 && p.timeout == 0
    ensures p.pairCode == Some("yolo") && p.reconnect
    ensures !p.socketConnected && p.socketStats == Counters(1, 0, 0)
    ensures p.socket == Some(0) && p.nextSocket == 1
    ensures p.timers == map[1 := Timer(SocketReconnectTimer, 1000)] && p.nextTimer == 2
    ensures p.connectTimeoutSlot == None && p.socketReconnectSlot == Some(1) && p.rtcReconnectSlot == None
    ensures p.events == [ConnectAttempt, Message("peer.found", PeerInfo(false)), Event.Connect, Reconnect]
  {
    p := ConnectedClient(true, false);
    p.OnSocketClose();
  }

  /** The dropped client's reconnect timer fires and the new socket opens:
      the retry announces itself as a reconnect attempt. */
  method RetriedClient() returns (p: SocketPeer, retryDelay: int)
    ensures fresh(p) && p.Valid() && retryDelay == 1000
    ensures p.pairCode == Some("yolo")
    ensures !p.socketConnected && p.socketStats == Counters(1, 0, 1)
    ensures p.socket == Some(1) && p.nextSocket == 2 && p.timers == map[]
    ensures p.events == [ConnectAttempt, Message("peer.found", PeerInfo(false)), Event.Connect, Reconnect,
                         ConnectAttempt, ReconnectAttempt]
  {
    p := DroppedClient();
    retryDelay := p.timers[1].delay;
    p.FireConnectTimer(1);
    p.OnSocketOpen();
  }

  /** The relay drops after connecting: the reconnect timer waits the base
      delay (attempts were reset by the success), the retry announces itself
      as a reconnect attempt, and the second `peer.found` counts a second
      success.  That second `peer.found` is supplied here as a stimulus from
      outside the server model: the modelled server, as written, answers the
      reconnecting socket's `pair` by throwing on the bare waiting entry that
      server/index.js:164 left behind (see `RepairAfterCloseThrows`). */
  method SocketReconnects() returns (retryDelay: int, connected: bool, stats: Counters, emitted: seq<Event>)
    ensures retryDelay == 1000
    ensures connected && stats == Counters(2, 0, 0)
    ensures emitted == [ConnectAttempt, Message("peer.found", PeerInfo(false)), Event.Connect, Reconnect,
                        ConnectAttempt, ReconnectAttempt, Message("peer.found", PeerInfo(false)), Event.Connect, Reconnect]
  {
    var p;
    p, retryDelay := RetriedClient();
    var again := p.OnSocketMessage(Parsed(Envelope("peer.found", PeerInfo(false))));
    connected, stats, emitted := p.socketConnected, p.socketStats, p.events;
  }

  /** A reconnecting initiator whose peer closed while the relay stays up:
      the re-upgrade timer waits the base delay. */
  method DowngradedInitiator() returns (p: SocketPeer)
    ensures fresh(p) && p.Valid()
    ensures p.socketConnected && p.socket == Some(0) && p.initiator && !p.rtcConnected
    ensures p.peer == None && p.nextPeer == 1 && p.rtcStats == Counters(1, 0, 0)
    ensures p.timers == map[1 := Timer(RtcReconnectTimer, 1000)] && p.rtcReconnectSlot == Some(1)
    ensures p.actions == [SocketOpen(0, RelayUrl), SocketSend(0, Envelope("pair", Text("yolo"))),
                          SocketSend(0, Envelope("rtc.connect", Undefined)), PeerCreate(0, true), PeerDestroy(0)]
  {
    p := UpgradedClient(true, true);
    p.DestroyPeer();
    p.OnPeerClose();
  }

  /** The initiator loses its peer while the relay stays up: a re-upgrade
      timer with the base delay is armed, and when it fires the partner is
      asked again and a second peer connects. */
  method WebRtcReconnects() returns (retryDelay: int, upgraded: bool, rtc: Counters, calls: seq<Action>)
    ensures retryDelay == 1000
    ensures upgraded && rtc == Counters(2, 0, 0)
    ensures calls == [SocketOpen(0, RelayUrl), SocketSend(0, Envelope("pair", Text("yolo"))),
                      SocketSend(0, Envelope("rtc.connect", Undefined)), PeerCreate(0, true), PeerDestroy(0),
                      SocketSend(0, Envelope("rtc.connect", Undefined)), PeerCreate(1, true)]
  {
    var p := DowngradedInitiator();
    retryDelay := p.timers[1].delay;
    p.FireRtcReconnect(1);
    p.OnPeerConnect();
    upgraded, rtc, calls := p.rtcConnected, p.rtcStats, p.actions;
  }

  // ---------------------------------------------------------------------
  // Server
  // ---------------------------------------------------------------------

  /** What happens to a server: a socket connects, a connected socket sends
      a frame, or a connected socket closes. */
  datatype Step = Join | Receive(from: ClientId, frame: Incoming) | Leave(who: ClientId)

  /** The server as written, from its initial state, under ANY sequence of
      connections, frames and closes: nobody is ever queued, linked or sent
      anything, because a code nobody waits on is never entered in
      `peersWaiting`. */
  method RunAsWritten(steps: seq<Step>) returns (sent: seq<Outgoing>)
    ensures sent == []
  {
    var server := new Server();
    for i := 0 to |steps|
      invariant server.Valid() && server.Dormant() && server.outbox == []
    {
      match steps[i]
      case Join =>
        var c := server.AcceptConnection();
      case Receive(from, frame) =>
        if from in server.clients {
          var o := server.OnMessage(from, frame);
        }
      case Leave(who) =>
        if who in server.clients {
          var o := server.Close(who);
        }
    }
    sent := server.outbox;
  }

  /** Two sockets pair on the same code, as written: neither hears back. */
  method PairingAsWritten() returns (sent: seq<Outgoing>, firstPeer: Option<ClientId>, secondPeer: Option<ClientId>)
    ensures sent == [] && firstPeer == None && secondPeer == None
  {
    var server := new Server();
    var a := server.AcceptConnection();
    var b := server.AcceptConnection();
    var o1 := server.OnMessage(a, Parsed(Envelope("pair", Text("yolo"))));
    assert server.peersWaiting == map[] && server.connections == map[] && server.outbox == [];
    var o2 := server.OnMessage(b, Parsed(Envelope("pair", Text("yolo"))));
    sent, firstPeer, secondPeer := server.outbox, server.clients[a].peer, server.clients[b].peer;
  }

  /** Two sockets have connected and the first has paired on a fresh code:
      it is queued as the code's waiting client. */
  method WaitingServer() returns (server: Server)
    ensures fresh(server) && server.Valid()
    ensures server.nextClient == 2
    ensures server.clients == map[0 := ClientRec(Some("yolo"), None), 1 := ClientRec(None, None)]
    ensures server.peersWaiting == map["yolo" := List([0])]
    ensures server.connections == map[] && server.outbox == []
  {
    server := new Server();
    var a := server.AcceptConnection();
    var b := server.AcceptConnection();
    assert a == 0 && b == 1 && !Busy(server.connections, "yolo") && "yolo" !in server.peersWaiting;
    var o := server.PairOrQueue(a, "yolo");
    assert server.peersWaiting == map[]["yolo" := List([0])];
  }

  /** Two sockets pair on the same code with the fresh code queued: the
      first waits, the second is matched with it, each links to the other,
      the waiting one is told it does not initiate and the newcomer that it
      does.  The first stays in the waiting list. */
  method PairedServer() returns (server: Server)
    ensures fresh(server) && server.Valid()
    ensures server.nextClient == 2
    ensures server.clients == map[0 := ClientRec(Some("yolo"), Some(1)), 1 := ClientRec(Some("yolo"), Some(0))]
    ensures server.peersWaiting == map["yolo" := List([0])]
    ensures server.connections == map["yolo" := Some(Pairing(1, 0))]
    ensures server.outbox == [PeerFound(0, false), PeerFound(1, true)]
  {
    server := WaitingServer();
    SecondPairs(server);
  }

  /** The second socket's `pair yolo` on the server `WaitingServer` builds. */
  method SecondPairs(server: Server)
    requires server.Valid() && server.nextClient == 2
    requires server.clients == map[0 := ClientRec(Some("yolo"), None), 1 := ClientRec(None, None)]
    requires server.peersWaiting == map["yolo" := List([0])]
    requires server.connections == map[] && server.outbox == []
    modifies server`peersWaiting, server`connections, server`clients, server`outbox
    ensures server.Valid() && server.nextClient == 2
    ensures server.clients == map[0 := ClientRec(Some("yolo"), Some(1)), 1 := ClientRec(Some("yolo"), Some(0))]
    ensures server.peersWaiting == map["yolo" := List([0])]
    ensures server.connections == map["yolo" := Some(Pairing(1, 0))]
    ensures server.outbox == [PeerFound(0, false), PeerFound(1, true)]
  {
    SecondOnCode();
    assert !Busy(server.connections, "yolo") && server.peersWaiting["yolo"] == List([0]);
    assert server.clients[1 := server.clients[1].(pairCode := Some("yolo"))] == BothOnCode();
    var o := server.PairOrQueue(1, "yolo");
    assert server.clients == LinkAll(BothOnCode(), 1, [0]);
    assert server.outbox == Announcements(1, [0]);
  }

  /** Both sockets' records once the second has adopted the code. */
  function BothOnCode(): map<ClientId, ClientRec>
  {
    map[0 := ClientRec(Some("yolo"), None), 1 := ClientRec(Some("yolo"), None)]
  }

  /** The loop of client 1 over the waiting list `[0]`, evaluated: one match
      with client 0, no push. */
  lemma SecondOnCode()
    ensures Others([0], 1) == [0] && Count([0], 1) == 0 && [0] + Repeat(1, 0) == [0]
    ensures LinkAll(BothOnCode(), 1, [0]) == map[0 := ClientRec(Some("yolo"), Some(1)), 1 := ClientRec(Some("yolo"), Some(0))]
    ensures Announcements(1, [0]) == [PeerFound(0, false), PeerFound(1, true)]
  {
    assert [0][..0] == [];
    assert LinkAll(BothOnCode(), 1, [0]) == Link(Link(BothOnCode(), 1, 0), 0, 1);
  }

  method PairingAsIntended() returns (a: ClientId, b: ClientId, sent: seq<Outgoing>,
                                      aPeer: Option<ClientId>, bPeer: Option<ClientId>)
    ensures a != b
    ensures sent == [PeerFound(a, false), PeerFound(b, true)]
    ensures aPeer == Some(b) && bPeer == Some(a)
  {
    var server := PairedServer();
    a, b := 0, 1;
    sent, aPeer, bPeer := server.outbox, server.clients[a].peer, server.clients[b].peer;
  }

  /** A third socket on a code whose pair is connected is told `busy` and is
      not linked; the pair stays linked. */
  method ThirdClientBusy() returns (c: ClientId, last: Outgoing, cPeer: Option<ClientId>, paired: bool)
    ensures last == Outgoing(c, Envelope("busy", Undefined))
    ensures cPeer == None && paired
  {
    var server := PairedServer();
    c := server.AcceptConnection();
    var o3 := server.PairOrQueue(c, "yolo");
    last, cPeer := server.outbox[|server.outbox| - 1], server.clients[c].peer;
    paired := server.clients[0].peer == Some(1) && server.clients[1].peer == Some(0);
  }

  /** When one of a pair closes, its partner is left as the code's bare
      waiting entry and both links are cleared; the next socket to pair on
      that code then makes the pair handler throw instead of waiting. */
  method RepairAfterCloseThrows() returns (aPeer: Option<ClientId>, closed: Outcome, repaired: Outcome)
    ensures aPeer == None && closed == Completed
    ensures repaired == Threw
  {
    var server := PairedServer();
    closed := server.Close(1);
    aPeer := server.clients[0].peer;
    var d := server.AcceptConnection();
    repaired := server.PairOrQueue(d, "yolo");
  }
}
