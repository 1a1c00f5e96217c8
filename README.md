# socketpeer: the client connection state machine and the pairing server

socketpeer connects two browsers that share a *pair code*. Each browser runs
a `SocketPeer`. It first opens a WebSocket to a relay server and sends
`pair` with its code. The server is meant to match two sockets on the same
code and tell each of them `peer.found` (as written it never does; see
"## Findings"). The side told `initiator: true` then asks
its partner, through the relay, to start WebRTC, and both sides create a
SimplePeer. Signaling messages travel over the relay until the direct
channel connects (an *upgrade*). Application `send` uses the direct channel
while it is up and the relay otherwise. When the relay drops, the client
reconnects with exponential backoff. When the direct channel drops (a
*downgrade*), the initiator re-upgrades with the same backoff.

This project models both sides in Dafny:

- `protocol.dfy` (module `Protocol`) holds the wire vocabulary. It has the
  `{type, data}` envelope (already parsed from JSON) and the JSON values the
  code inspects. It also has the outcome of a handler: completed, or threw a
  TypeError partway. Finally it has `PropertyKey`, the string a JavaScript
  object uses as the property key for a value.
- `client.dfy` (module `Client`) models browser/index.js. The backoff
  `_calcReconnectTimeout` is a pure function with lemmas. The `SocketPeer`
  object is a class with one method per handler and transport event.
  - WebSocket and SimplePeer are abstract. Each created socket or peer gets
    a number. The calls the client makes on them are appended to `actions`,
    and the events it emits are appended to `events`.
  - `setTimeout` is modelled by handles. `timers` maps the handle of every
    pending callback to its kind and delay. `clearTimeout(h)` removes `h`,
    and the three timer fields hold the last handle stored in each.
  - `Valid()` is the invariant every handler keeps. At most one
    socket-reconnect timer and at most one re-upgrade timer are pending,
    and each is the one its field names.
- `broker.dfy` (module `Broker`) models the `connection` handler of
  server/index.js. The class `Server` holds three tables and an outbox of
  sent frames:
  - `peersWaiting` maps a code to a list of clients, or to a bare client
    after a close;
  - `connections` maps a code to a `[client, waiting]` pair or null;
  - `clients` holds each client's `pairCode` and `peer`.

  The `forEach` over a waiting list is a loop. It is proved against the
  pure fold `MatchFold`, and `MatchFoldEffect` proves that fold equal to a
  closed description of the whole loop.
- `scenarios.dfy` (module `Scenarios`) holds concrete runs. The client runs
  replay the lifecycles that test/index.js exercises. The server runs show
  the finding below and the pairing as intended.

Events are logged in the order `emit` is called. The client's own listeners
for `peer.found`, `rtc.connect` and `busy` run inside that `emit` call. So
the entry `Message("peer.found", …)` comes before the `connect` event its
listener emits.

## Model

| member | source | states |
|---|---|---|
| Client.ReconnectTimeout | browser/index.js:167-170 | the delay is at most 30000 and at most 2^attempts · reconnectDelay, and it equals one of the two |
| Client.Pow2 | browser/index.js:169 | the factor `Math.pow(2, attempts)` is at least 1, so for a non-negative base delay no attempt waits less than min(reconnectDelay, 30000) |
| Client.Pow2Monotone | browser/index.js:169 | the factor `Math.pow(2, attempts)` never shrinks as attempts grow |
| Client.ReconnectTimeoutMonotone | browser/index.js:167-170 | for a non-negative base delay, a later attempt never waits less than an earlier one |
| Client.ReconnectTimeoutDoubles | browser/index.js:167-170 | each further attempt doubles the delay until it reaches the 30000 cap |
| Client.ReconnectTimeoutSaturates | browser/index.js:167-170 | from the 15th attempt on, any positive base delay gives exactly 30000 |
| Client.WsUrl | browser/index.js:117 | `url.replace(/^http/, 'ws')`: a URL starting with `http` loses those four letters for `ws` and keeps the rest; any other URL is unchanged |
| Client.WsUrlPrefix | browser/index.js:117 | the relay URL replaces only the leading `http` by `ws` and keeps the rest |
| Client.WsUrlSchemes | browser/index.js:117 | `http://` becomes `ws://` and `https://` becomes `wss://` |
| Client.InitiatorOf | browser/index.js:62-64 | reading `data.initiator` fails (the handler throws) exactly when `data` is null or undefined; a `{initiator: b}` object gives `b`, and any other value has no such field and reads as not initiator |
| Client.ListenerOf | browser/index.js:50-77 | the constructor registers exactly one listener on each of `peer.found`, `rtc.signal`, `rtc.connect` and `busy`, and none on any other type |
| Client.SocketPeer.constructor | browser/index.js:16-84 | all counters are zero, both flags are down, there is no socket, peer or handle, and only the autoconnect timer is pending (when `autoconnect` is set) |
| Client.SocketPeer.ClearTimeout | browser/index.js:52-53 | `clearTimeout` removes exactly the named handle from the pending timers |
| Client.SocketPeer.SetTimeout | browser/index.js:109 | `setTimeout` adds one pending timer under a handle never used before |
| Client.SocketPeer.SendEnvelope | browser/index.js:245-257 | `_send` puts exactly one envelope on the current socket, or nothing when there is none |
| Client.SocketPeer.Pair | browser/index.js:88-96 | the code is adopted only when given, and one `pair` envelope carries the current code (null when there is none) |
| Client.SocketPeer.SocketError | browser/index.js:157-165 | a socket error adds one to `error` and leaves `attempt` and `success` unchanged; it emits `error`, `connect_error` and, after a success, `reconnect_error` |
| Client.SocketPeer.Connect | browser/index.js:98-155 | `attempt` grows by one on every call; when connected nothing else changes; otherwise a connect timeout is armed iff `timeout` is set, a fresh socket is opened on the ws URL and the attempt events are emitted |
| Client.SocketPeer.OnSocketOpen | browser/index.js:118-120 | an opened socket sends `pair` with the unchanged code |
| Client.SocketPeer.OnSocketError | browser/index.js:121-123 | a WebSocket error is one socket error |
| Client.SocketPeer.OnSocketClose | browser/index.js:138-149 | the socket is down; with `reconnect` exactly one socket-reconnect timer is pending, replacing any earlier one, with the backoff for the current attempt count; without `reconnect` the timers are unchanged |
| Client.SocketPeer.SocketUp | browser/index.js:51-60 | connected: `attempt` is 0, `success` is one more, the connect timeout and reconnect timer are cleared, and `connect` then `reconnect` are emitted |
| Client.SocketPeer.PeerFound | browser/index.js:50-68 | the connected part above; `initiator` is stored; only the initiator sends `rtc.connect` and starts a peer; null or undefined data throws after the counters are updated |
| Client.SocketPeer.TakeRole | browser/index.js:62-67 | the role half of `peer.found`: the non-initiator sends and creates nothing, and the initiator sends `rtc.connect` before `_rtcInit` |
| Client.SocketPeer.Busy | browser/index.js:74-77 | `busy` is one socket error naming the code, then the socket is closed (throws when there is no socket) |
| Client.SocketPeer.OnSocketMessage | browser/index.js:124-137 | a frame that is not JSON emits two events and changes nothing else; an envelope is emitted under its own type and then runs exactly the listener of its type, and an unknown type changes nothing else |
| Client.SocketPeer.DeliverPeerFound | browser/index.js:50-68 | the `peer.found` emission is logged before its listener's effect |
| Client.SocketPeer.DeliverRtcConnect | browser/index.js:70-72 | the `rtc.connect` emission is logged before `_rtcInit` runs |
| Client.SocketPeer.DeliverBusy | browser/index.js:74-77 | the `busy` emission is logged before its listener's effect |
| Client.SocketPeer.RtcInit | browser/index.js:172-236 | when connected, the peer, counters and log are unchanged; otherwise a fresh peer replaces the current one without destroying it, `rtc.attempt` grows by one and `upgrade_attempt` is emitted |
| Client.SocketPeer.RtcSignal | browser/index.js:238-243 | an incoming signal reaches the peer iff not connected and the peer exists and is not destroyed |
| Client.SocketPeer.OnPeerConnect | browser/index.js:185-191 | upgraded: `rtc.success` is one more, `rtc.attempt` is 0 and no re-upgrade timer is pending |
| Client.SocketPeer.OnPeerError | browser/index.js:197-201 | a peer error adds one to `rtc.error` and emits `upgrade_error` then `error` |
| Client.SocketPeer.OnPeerSignal | browser/index.js:203-208 | a local signal is relayed iff not connected |
| Client.SocketPeer.OnPeerData | browser/index.js:210-212 | peer data is emitted as `data` |
| Client.SocketPeer.OnPeerSelfDestroy | browser/index.js:240 | the current peer, if any, now reports `destroyed`, so incoming signals stop reaching it |
| Client.SocketPeer.OnPeerClose | browser/index.js:214-232 | the peer is destroyed and dropped, the channel is down and `downgrade` is emitted; a re-upgrade timer with the rtc backoff replaces any earlier one iff socketConnected ∧ reconnect ∧ initiator |
| Client.SocketPeer.RearmSocketReconnect | browser/index.js:143-147 | after clear-then-set, exactly one socket-reconnect timer is pending |
| Client.SocketPeer.RearmRtcReconnect | browser/index.js:223-227 | after clear-then-set, exactly one re-upgrade timer is pending |
| Client.SocketPeer.Send | browser/index.js:259-266 | `send` goes to the peer iff the channel is connected (throwing without a peer); otherwise it produces exactly one `data` envelope, or nothing without a socket |
| Client.SocketPeer.DestroyPeer | browser/index.js:289-296 | the peer, if any, is destroyed; the peer is then null and the channel is down |
| Client.SocketPeer.Close | browser/index.js:268-274 | the peer is destroyed, then the socket, if any, is closed |
| Client.SocketPeer.Destroy | browser/index.js:276-287 | `reconnect` is off, peer and socket are null, both flags are down, and the three named timers are cancelled, so no reconnect or re-upgrade timer is left |
| Client.SocketPeer.CancelTimers | browser/index.js:284-286 | the three handles are cleared and no reconnect or re-upgrade timer is pending |
| Client.SocketPeer.ArmConnectTimeout | browser/index.js:108-115 | the connect timeout is pending under a fresh handle stored in its slot |
| Client.SocketPeer.OpenSocket | browser/index.js:117-154 | a fresh socket on the ws URL becomes current, and `connect_attempt` (plus `reconnect_attempt` after a success) is emitted |
| Client.SocketPeer.FireConnectTimer | browser/index.js:79-83 | the autoconnect or socket-reconnect timer fires once and runs `connect()` |
| Client.SocketPeer.FireConnectTimeout | browser/index.js:109-114 | the timeout closes the socket (throws when there is none), emits `connect_timeout` and counts one socket error |
| Client.SocketPeer.FireRtcReconnect | browser/index.js:224-227 | the re-upgrade timer fires once, sends `rtc.connect` and runs `_rtcInit` |
| Protocol.PropertyKey | server/index.js:102-109 | the key a JavaScript table uses for the `pair` data: a string is its own key, null is `"null"`, undefined is `"undefined"`, and every plain object is `"[object Object]"`; arrays (keyed by their comma join), numbers and booleans have keys of their own and are not values of `Data` |
| Broker.KeyOf | server/index.js:151-164 | a client's `pairCode` indexes the tables as itself, and an unset code as the key `PropertyKey(undefined)`, `"undefined"` |
| Broker.Count | server/index.js:119-127 | the number of times `c` occurs in a waiting list; zero iff it does not occur |
| Broker.Others | server/index.js:110-118 | the entries a newcomer is linked with: none of them is the newcomer, and together with the newcomer's own entries they make up the whole list |
| Broker.OthersMembers | server/index.js:110 | an entry is matched iff it is in the list and is not the newcomer |
| Broker.Repeat | server/index.js:123-124 | one push of the newcomer per entry equal to it |
| Broker.Announcements | server/index.js:117-118 | two `peer.found` frames per match |
| Broker.AnnouncementsAt | server/index.js:117-118 | the k-th match sends `peer.found{initiator:false}` to the waiting client, then `peer.found{initiator:true}` to the newcomer |
| Broker.Link | server/index.js:113-114 | one `x.peer = y` assignment: the named record gets the new peer and keeps its code, and no client is added or dropped |
| Broker.LinkKeepsOthers | server/index.js:113-114 | `x.peer = y` leaves every record other than `x`'s unchanged |
| Broker.LinkAll | server/index.js:113-114 | the links of every match in turn; no client is added or dropped |
| Broker.LinkAllEffect | server/index.js:113-114 | after the loop, the newcomer's peer is the last entry matched, every matched entry's peer is the newcomer, every other client is unchanged, and no pairCode changes |
| Broker.MatchStep | server/index.js:110-127 | one turn of the `forEach` keeps every client known and the code's list present |
| Broker.MatchFold | server/index.js:109-129 | the whole `forEach` keeps every client known and the code's list present |
| Broker.MatchFoldEffect | server/index.js:109-129 | the loop pushes the newcomer once per own entry, links it with every other entry in turn, announces each match, and leaves the connection naming the last one matched |
| Broker.MatchFoldWhole | server/index.js:109-129 | the whole `forEach`, field by field: one push of the newcomer per own entry, every matched entry is a known client, the links, the announcements and the connection naming the last match |
| Broker.IndexOf | server/index.js:152 | `indexOf`: -1 iff absent, otherwise the first index holding the client |
| Broker.Truncated | server/index.js:154 | one-argument `splice(indexOf(client))` keeps exactly the entries before the client's first occurrence |
| Broker.Unlinked | server/index.js:65-70 | both members of a connection have no peer, and every other record is unchanged |
| Broker.Server.constructor | server/index.js:62-63 | both tables are empty and no client is known |
| Broker.Server.AcceptConnection | server/index.js:79-82 | a new socket is known, with no code and no peer, and nothing else changes |
| Broker.Server.Pair | server/index.js:99-130 | a code with a live connection: exactly one `busy` and nothing else changes; otherwise the code is recorded, and a fresh code queues and sends nothing, a bare entry throws, and a list is matched as `MatchFoldEffect` describes |
| Broker.Server.MatchAll | server/index.js:109-129 | the loop over a waiting list, stated whole: pushes, links, announcements and the last connection |
| Broker.Server.MatchWaiting | server/index.js:109-129 | the in-place loop leaves the tables equal to `MatchFold` over the list as it was when the loop started |
| Broker.Server.MatchOne | server/index.js:110-128 | one turn of the loop is `MatchStep` |
| Broker.Server.PairOrQueue | server/index.js:119-127 | as intended, a client pairing on a code nobody waits on is queued alone; every other case is `Pair` |
| Broker.Server.Relay | server/index.js:94-96 | exactly one frame of the same type and payload goes to the peer when there is one, and nothing otherwise |
| Broker.Server.OnData | server/index.js:91-97 | `data` is forwarded to the peer once, or dropped without a peer |
| Broker.Server.OnRtcSignal | server/index.js:132-140 | `rtc.signal` is forwarded to the peer once, or dropped without a peer |
| Broker.Server.OnRtcConnect | server/index.js:142-148 | `rtc.connect` is forwarded to the peer once, without data, or dropped without a peer |
| Broker.Server.CloseConnection | server/index.js:65-70 | both members lose their peer and the entry becomes null; a missing or null entry throws and changes nothing |
| Broker.Server.WaitingAfterLeave | server/index.js:151-156 | when the client is in its code's waiting list, that list is cut just before the client's first occurrence; every other entry and every other table key is unchanged, and without such a list nothing changes |
| Broker.Server.Close | server/index.js:150-167 | a client found in its code's list cuts the list at itself; a bare entry throws; a client with a peer leaves that peer as the bare entry and closes the connection; without a peer nothing else changes |
| Broker.Server.OnMessage | server/index.js:84-89 | a frame that is not JSON throws and changes nothing; a type nobody listens to is ignored; `pair` is keyed by the JavaScript property key of its data; the other three types are relayed |
| Scenarios.AttemptingClient | test/index.js:4-17 | after the autoconnect fires: `attempt` is 1, `success` and `error` are 0, not connected, and the socket is opened on `ws://…` |
| Scenarios.FirstConnectAttempt | test/index.js:4-25 | `connect_attempt` with attempt 1, success 0, error 0 and not connected |
| Scenarios.OpenedClient | browser/index.js:118-120 | the opened socket has sent `pair` with the code `yolo` |
| Scenarios.ConnectedClient | test/index.js:40-53 | after `peer.found`: connected, attempt 0, success 1, error 0 |
| Scenarios.BasicLifecycle | test/index.js:27-80 | connected through the relay, `send('ping')` goes out as one `data` envelope |
| Scenarios.ConnectTimeoutExpires | test/index.js:82-106 | a 500 ms timeout emits `connect_timeout`, `error` and `connect_error` and ends at attempt 1, success 0, error 1; the reconnect waits 2 s |
| Scenarios.UpgradedClient | test/index.js:121-129 | either side reaches `upgrade` with one rtc success |
| Scenarios.SendAfterDowngrade | test/index.js:108-163 | after `destroyPeer` the side is downgraded and its `send('pong')` goes over the relay |
| Scenarios.DroppedClient | test/index.js:192-194 | a dropped relay arms a reconnect with the base delay, because the success reset the attempts |
| Scenarios.RetriedClient | browser/index.js:145-154 | the retry opens a second socket and announces `connect_attempt` and `reconnect_attempt` |
| Scenarios.SocketReconnects | test/index.js:165-197 | the relay reconnects and `peer.found` counts a second success; that second `peer.found` is a stimulus from outside the server model, since the modelled server throws on the reconnecting socket's `pair` (see `RepairAfterCloseThrows`) |
| Scenarios.DowngradedInitiator | test/index.js:217-221 | the initiator's downgrade arms a re-upgrade with the base delay |
| Scenarios.WebRtcReconnects | test/index.js:199-236 | the re-upgrade asks the partner again and a second peer connects |
| Scenarios.RunAsWritten | server/index.js:109 | from the initial server, no sequence of connections, frames and closes sends anything |
| Scenarios.PairingAsWritten | server/index.js:99-130 | two sockets pairing on the same code, as written, get no answer and no peer |
| Scenarios.WaitingServer | server/index.js:126 | as intended, the first socket on a code is queued |
| Scenarios.PairedServer | server/index.js:109-118 | as intended, the second socket is linked with the first, and `peer.found` goes to the waiting one (not initiator), then to the newcomer (initiator) |
| Scenarios.SecondPairs | server/index.js:109-118 | as intended, from one queued client on `yolo`, the second client's `pair yolo` links the two both ways, records the connection `[1, 0]` and sends `peer.found` to 0 then to 1 |
| Scenarios.SecondOnCode | server/index.js:109-118 | the loop of a second socket over the list `[0]` matches client 0 once, pushes nothing, links the two both ways and sends the two `peer.found` frames |
| Scenarios.PairingAsIntended | server/index.js:113-118 | the pair is linked both ways and announced in that order |
| Scenarios.ThirdClientBusy | server/index.js:102-105 | a third socket on a connected code gets `busy` and no peer, and the pair stays linked |
| Scenarios.RepairAfterCloseThrows | server/index.js:150-167 | after one of a pair closes, its partner is unlinked; the next `pair` on that code finds a bare entry and throws |

## Left out

- The HTTP server, its configuration and static files, and `listen` (server/index.js:16-60, 173-177) are I/O plumbing.
- WebSocket and SimplePeer are foreign libraries. They appear only as the calls in `actions` and the transport events the model's methods stand for. Sending on a socket that is still CONNECTING (where a browser WebSocket's `send` throws InvalidStateError, e.g. `send()` at browser/index.js:264 between `connect()` and `onopen`), closing or closed is not distinguished from sending on an open one: `SendEnvelope` logs a `SocketSend` in every case.
- `JSON.parse` and `JSON.stringify` are not modelled. Frames arrive as parsed envelopes or as `Malformed`. A frame that parses to a non-object (such as `null`) is not modelled.
- Real time is not modelled. Timers fire only when a `Fire…` method is called, in any order the caller chooses, and delays are recorded, not waited out.
- Floating point is not modelled. `Math.pow(2, attempts)` is an unbounded natural number, and the 30000 cap gives the same delays as the source for every positive integer base delay. For a base delay of 0 or below the source differs once attempts reach 1024: `Math.pow(2, attempts)` is then Infinity, so its delay is NaN (base 0) or -Infinity (negative base), where the model gives 0 or a finite negative number.
- Outcome `Threw` on the server means an exception escaped a `ws` event listener (server/index.js:66, 87, 109, 152). ws does not catch it, so Node reports an uncaught exception, which by default ends the process. The model instead keeps the state at the throw and carries on with the next event, as `Scenarios.RunAsWritten` does; its conclusion holds either way, since a process that ended sends nothing.
- Node's rule that `emit('error')` with no listener throws is not modelled. The model logs the event and carries on.
- Media `stream` forwarding, `socketFallback`, the `socket` and `stream` options, `_debug` and console output are cosmetic or pass-through.
- The constructor's `instanceof` guard and `opts || {}` are not modelled. `Options` is always given in full (`DefaultOptions` holds the defaults).
- `connections` holds a pair, not the `[client, waiting]` array. `closeConnection` iterates over both members of that array, so the effect is the same.
- Client.SocketPeer.Pair: the code is an `Option<string>`, so the call `pair(null)` cannot be expressed. In the source `typeof null` is `'object'`, so `pair(null)` adopts null as the code (browser/index.js:91-92). Only `pair()` without an argument, from the socket's `open` handler, is used inside the modelled code, and that call is modelled exactly.
- Client.SocketPeer.Destroy: the three timer fields keep their (now stale) handles after `clearTimeout`. The source also leaves them set. A connect timeout from an earlier `connect()`, and the autoconnect timer, can stay pending.

## Findings

| source | as written | input that shows it | evidently intended | confidence | as-written member | corrected member |
|---|---|---|---|---|---|---|
| server/index.js:109 | `(peersWaiting[pairCode] \|\| []).forEach(…)` visits nothing for a code nobody waits on, so the client is never queued and line 126 `peersWaiting[pairCode] = [client]` is unreachable; from a fresh server no sequence of messages ever pairs two sockets or sends any frame | two sockets connect and each sends `{"type":"pair","data":"yolo"}` | the first socket is queued under the code and the second is matched with it, receiving `peer.found` both ways | not executed | Scenarios.RunAsWritten | Broker.Server.PairOrQueue |
