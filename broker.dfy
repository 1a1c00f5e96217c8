/** The pairing server's `connection` handler (server/index.js): the two
    tables `peersWaiting` (code -> waiting clients) and `connections`
    (code -> `[client, waiting]` or null), the per-client `pairCode` and
    `peer` fields, and the messages the server sends.  Client sockets are
    identities; `sendMessage` appends to `outbox`. */
module Broker {
  import opened Protocol

  type ClientId = nat

  /** A `peersWaiting` entry: normally an array of clients, but line 164
      stores a bare client object there. */
  datatype Waiting = List(clients: seq<ClientId>) | Lone(client: ClientId)

  /** A live `connections` entry `[client, waiting]`. */
  datatype Pairing = Pairing(newcomer: ClientId, waiting: ClientId)

  /** The two fields the handlers add to a client socket.  A code never set
      (`undefined`) is `None`. */
  datatype ClientRec = ClientRec(pairCode: Option<string>, peer: Option<ClientId>)

  /** `client.sendMessage(type, data)`. */
  datatype Outgoing = Outgoing(to: ClientId, env: Envelope)

  /** The property key a client's `pairCode` stands for in both tables. */
  function KeyOf(code: Option<string>): (r: string)
    ensures code.Some? ==> r == code.value
    ensures code.None? ==> r == "undefined"
  {
    if code.Some? then code.value else "undefined"
  }

  /** `connections[code]` is truthy: an array, not undefined or null. */
  predicate Busy(connections: map<string, Option<Pairing>>, code: string)
  {
    code in connections && connections[code].Some?
  }

  /** Every client the waiting entry names is a key of `m`. */
  predicate Registered(e: Waiting, m: map<ClientId, ClientRec>)
  {
    match e
    case List(ws) => forall i :: 0 <= i < |ws| ==> ws[i] in m
    case Lone(w) => w in m
  }

  function PeerFound(to: ClientId, initiator: bool): Outgoing
  {
    Outgoing(to, Envelope("peer.found", PeerInfo(initiator)))
  }

  // ---------------------------------------------------------------------
  // The `forEach` of the pair handler, entry by entry
  // ---------------------------------------------------------------------

  /** How many entries of `ws` are `c`: each one appends `c` once more. */
  function Count(ws: seq<ClientId>, c: ClientId): (n: nat)
    ensures n <= |ws|
    ensures n == 0 <==> c !in ws
  {
    if ws == [] then 0
    else Count(ws[..|ws| - 1], c) + (if ws[|ws| - 1] == c then 1 else 0)
  }

  /** The entries of `ws` other than `c`, in order: each one is matched with `c`. */
  function Others(ws: seq<ClientId>, c: ClientId): (r: seq<ClientId>)
    ensures c !in r
    ensures |r| + Count(ws, c) == |ws|
  {
    if ws == [] then []
    else Others(ws[..|ws| - 1], c) + (if ws[|ws| - 1] != c then [ws[|ws| - 1]] else [])
  }

  /** The clients `c` is matched with are exactly the other waiting clients. */
  lemma {:induction false} OthersMembers(ws: seq<ClientId>, c: ClientId)
    ensures forall w :: w in Others(ws, c) <==> w in ws && w != c
  {
    if ws != [] {
      var n := |ws| - 1;
      OthersMembers(ws[..n], c);
      assert forall w :: w in ws <==> w in ws[..n] || w == ws[n];
    }
  }

  /** `n` copies of `c`. */
  function Repeat(c: ClientId, n: nat): (r: seq<ClientId>)
    ensures |r| == n && forall w :: w in r ==> w == c
  {
    if n == 0 then [] else Repeat(c, n - 1) + [c]
  }

  /** The `peer.found` pairs sent while `c` is matched with each of `others`:
      first to the waiting client (not initiator), then to `c` (initiator). */
  function Announcements(c: ClientId, others: seq<ClientId>): (r: seq<Outgoing>)
    ensures |r| == 2 * |others|
  {
    if others == [] then []
    else Announcements(c, others[..|others| - 1]) + [PeerFound(others[|others| - 1], false), PeerFound(c, true)]
  }

  /** `a.peer = b`, for a known client `a`. */
  function Link(m: map<ClientId, ClientRec>, a: ClientId, b: ClientId): (r: map<ClientId, ClientRec>)
    ensures r.Keys == m.Keys
    ensures a in m ==> r[a] == m[a].(peer := Some(b))
  {
    if a in m then m[a := m[a].(peer := Some(b))] else m
  }

  /** `a.peer = b` touches no record but `a`'s. */
  lemma LinkKeepsOthers(m: map<ClientId, ClientRec>, a: ClientId, b: ClientId, x: ClientId)
    requires x in m && x != a
    ensures Link(m, a, b)[x] == m[x]
  {
  }

  /** The peer links after `c` is matched with each of `others` in turn:
      `client.peer = waiting; waiting.peer = client`. */
  function LinkAll(m: map<ClientId, ClientRec>, c: ClientId, others: seq<ClientId>): (r: map<ClientId, ClientRec>)
    ensures r.Keys == m.Keys
  {
    if others == [] then m
    else
      var w := others[|others| - 1];
      Link(Link(LinkAll(m, c, others[..|others| - 1]), c, w), w, c)
  }

  lemma LinkAllSnoc(m: map<ClientId, ClientRec>, c: ClientId, others: seq<ClientId>, w: ClientId)
    ensures LinkAll(m, c, others + [w]) == Link(Link(LinkAll(m, c, others), c, w), w, c)
  {
    assert (others + [w])[..|others|] == others;
  }

  lemma AnnouncementsSnoc(c: ClientId, others: seq<ClientId>, w: ClientId)
    ensures Announcements(c, others + [w]) == Announcements(c, others) + [PeerFound(w, false), PeerFound(c, true)]
  {
    assert (others + [w])[..|others|] == others;
  }

  /** The k-th match sends `peer.found{initiator:false}` to the waiting
      client and then `peer.found{initiator:true}` to the newcomer. */
  lemma {:induction false} AnnouncementsAt(c: ClientId, others: seq<ClientId>, k: nat)
    requires k < |others|
    ensures Announcements(c, others)[2 * k] == PeerFound(others[k], false)
    ensures Announcements(c, others)[2 * k + 1] == PeerFound(c, true)
  {
    var n := |others| - 1;
    if k < n {
      AnnouncementsAt(c, others[..n], k);
    }
  }

  /** After the loop, the newcomer points at the LAST client it was matched
      with, every matched client points at the newcomer, and nobody else
      changes; no `pairCode` changes. */
  lemma {:induction false} LinkAllEffect(m: map<ClientId, ClientRec>, c: ClientId, others: seq<ClientId>)
    requires c in m && forall w :: w in others ==> w in m
    requires c !in others
    ensures others == [] ==> LinkAll(m, c, others) == m
    ensures others != [] ==> LinkAll(m, c, others)[c].peer == Some(others[|others| - 1])
    ensures forall w :: w in others ==> LinkAll(m, c, others)[w].peer == Some(c)
    ensures forall x :: x in m && x != c && x !in others ==> LinkAll(m, c, others)[x] == m[x]
    ensures forall x :: x in m ==> LinkAll(m, c, others)[x].pairCode == m[x].pairCode
  {
    if others != [] {
      var init, w := others[..|others| - 1], others[|others| - 1];
      assert others == init + [w];
      assert forall x :: x in init ==> x in others;
      LinkAllEffect(m, c, init);
      var r0 := LinkAll(m, c, init);
      var r := LinkAll(m, c, others);
      assert w in m && w != c;
      assert r == r0[c := r0[c].(peer := Some(w))][w := r0[w].(peer := Some(c))];
      forall x | x in others
        ensures r[x].peer == Some(c)
      {
        if x != w {
          assert x in init;
        }
      }
    }
  }

  /** The four tables the pair handler touches. */
  datatype State = State(
    peersWaiting: map<string, Waiting>,
    connections: map<string, Option<Pairing>>,
    clients: map<ClientId, ClientRec>,
    outbox: seq<Outgoing>)

  predicate Listed(s: State, code: string)
  {
    code in s.peersWaiting && s.peersWaiting[code].List?
  }

  /** One turn of the `forEach`, for waiting entry `w`: `c` itself is pushed
      onto the list again; anyone else is matched with `c`. */
  function MatchStep(s: State, c: ClientId, code: string, w: ClientId): (r: State)
    requires Listed(s, code)
    ensures Listed(r, code) && r.clients.Keys == s.clients.Keys
  {
    if w == c then
      s.(peersWaiting := s.peersWaiting[code := List(s.peersWaiting[code].clients + [c])])
    else
      s.(clients := Link(Link(s.clients, c, w), w, c),
         connections := s.connections[code := Some(Pairing(c, w))],
         outbox := s.outbox + [PeerFound(w, false), PeerFound(c, true)])
  }

  /** The `forEach` over the entries `ws`, in order. */
  function MatchFold(s: State, c: ClientId, code: string, ws: seq<ClientId>): (r: State)
    requires Listed(s, code)
    ensures Listed(r, code) && r.clients.Keys == s.clients.Keys
  {
    if ws == [] then s
    else MatchStep(MatchFold(s, c, code, ws[..|ws| - 1]), c, code, ws[|ws| - 1])
  }

  /** The state after the `forEach`, described whole: the list gains one
      `c` per entry equal to `c`, `c` is linked with every other entry, the
      connection records the last of them, and two `peer.found` go out per
      match. */
  function Matched(s: State, c: ClientId, code: string, ws: seq<ClientId>): State
    requires Listed(s, code)
  {
    var others := Others(ws, c);
    State(
      s.peersWaiting[code := List(s.peersWaiting[code].clients + Repeat(c, Count(ws, c)))],
      if others == [] then s.connections else s.connections[code := Some(Pairing(c, others[|others| - 1]))],
      LinkAll(s.clients, c, others),
      s.outbox + Announcements(c, others))
  }

  /** An entry equal to `c` only lengthens the list. */
  lemma MatchedSnocSelf(s: State, c: ClientId, code: string, ws: seq<ClientId>)
    requires Listed(s, code)
    ensures Matched(s, c, code, ws + [c]) == MatchStep(Matched(s, c, code, ws), c, code, c)
  {
    assert (ws + [c])[..|ws|] == ws;
    assert Others(ws + [c], c) == Others(ws, c);
    var list := s.peersWaiting[code].clients;
    var grown := List(list + Repeat(c, Count(ws + [c], c)));
    assert list + Repeat(c, Count(ws, c)) + [c] == grown.clients;
    assert Matched(s, c, code, ws + [c]).peersWaiting == s.peersWaiting[code := grown];
    assert MatchStep(Matched(s, c, code, ws), c, code, c).peersWaiting == s.peersWaiting[code := grown];
  }

  /** Any other entry is one more match. */
  lemma MatchedSnocOther(s: State, c: ClientId, code: string, ws: seq<ClientId>, w: ClientId)
    requires Listed(s, code) && w != c
    ensures Matched(s, c, code, ws + [w]) == MatchStep(Matched(s, c, code, ws), c, code, w)
  {
    assert (ws + [w])[..|ws|] == ws;
    var before := Others(ws, c);
    assert Others(ws + [w], c) == before + [w];
    LinkAllSnoc(s.clients, c, before, w);
    AnnouncementsSnoc(c, before, w);
    var conns := s.connections[code := Some(Pairing(c, w))];
    assert Matched(s, c, code, ws + [w]).connections == conns;
    assert MatchStep(Matched(s, c, code, ws), c, code, w).connections == conns;
  }

  /** The `forEach`, turn by turn, ends in the state `Matched` describes. */
  lemma {:induction false} MatchFoldEffect(s: State, c: ClientId, code: string, ws: seq<ClientId>)
    requires Listed(s, code)
    ensures MatchFold(s, c, code, ws) == Matched(s, c, code, ws)
  {
    if ws == [] {
      var list := s.peersWaiting[code].clients;
      assert list + Repeat(c, 0) == list;
      assert s.peersWaiting[code := List(list)] == s.peersWaiting;
    } else {
      var n := |ws| - 1;
      MatchFoldEffect(s, c, code, ws[..n]);
      assert ws[..n] + [ws[n]] == ws;
      if ws[n] == c {
        MatchedSnocSelf(s, c, code, ws[..n]);
      } else {
        MatchedSnocOther(s, c, code, ws[..n], ws[n]);
      }
    }
  }

  /** The whole `forEach` over the code's list, field by field: `c` is pushed
      once per own entry, linked with every other (known) entry in turn, each
      match is announced, and the connection names the last match. */
  lemma MatchFoldWhole(s: State, c: ClientId, code: string)
    requires Listed(s, code) && Registered(s.peersWaiting[code], s.clients)
    ensures var ws := s.peersWaiting[code].clients;
            var others := Others(ws, c);
            var t := MatchFold(s, c, code, ws);
            && t.peersWaiting == s.peersWaiting[code := List(ws + Repeat(c, Count(ws, c)))]
            && (forall w :: w in others ==> w in s.clients)
            && t.clients == LinkAll(s.clients, c, others)
            && t.outbox == s.outbox + Announcements(c, others)
            && (others == [] ==> t.connections == s.connections)
            && (others != [] ==> t.connections == s.connections[code := Some(Pairing(c, others[|others| - 1]))])
  {
    var ws := s.peersWaiting[code].clients;
    MatchFoldEffect(s, c, code, ws);
    OthersMembers(ws, c);
  }

  /** `Array.prototype.indexOf`: the first index of `c`, or -1. */
  function IndexOf(ws: seq<ClientId>, c: ClientId): (i: int)
    ensures -1 <= i < |ws|
    ensures i == -1 <==> c !in ws
    ensures 0 <= i ==> ws[i] == c && c !in ws[..i]
  {
    if ws == [] then -1
    else if ws[0] == c then 0
    else
      var j := IndexOf(ws[1..], c);
      assert 0 <= j ==> ws[..j + 1] == [ws[0]] + ws[1..][..j];
      if j == -1 then -1 else j + 1
  }

  /** `ws.splice(ws.indexOf(c))` when `c` is present: with a single argument
      `splice` keeps only the entries BEFORE `c`, so `c` and everyone who
      queued after it are dropped. */
  function Truncated(ws: seq<ClientId>, c: ClientId): (r: seq<ClientId>)
    ensures r <= ws && c !in r
    ensures c in ws ==> |r| == IndexOf(ws, c) && ws[|r|] == c
    ensures c !in ws ==> r == ws
  {
    var i := IndexOf(ws, c);
    if i > -1 then ws[..i] else ws
  }

  /** `closeConnection(code)` on `[a, b]`: both lose their peer. */
  function Unlinked(m: map<ClientId, ClientRec>, p: Pairing): (r: map<ClientId, ClientRec>)
    requires p.newcomer in m && p.waiting in m
    ensures r.Keys == m.Keys
    ensures r[p.newcomer].peer == None && r[p.waiting].peer == None
    ensures forall x :: x in m ==> r[x].pairCode == m[x].pairCode
    ensures forall x :: x in m && x != p.newcomer && x != p.waiting ==> r[x] == m[x]
  {
    var first := m[p.newcomer := m[p.newcomer].(peer := None)];
    first[p.waiting := first[p.waiting].(peer := None)]
  }

  // ---------------------------------------------------------------------
  // The server
  // ---------------------------------------------------------------------

  class Server {
    var peersWaiting: map<string, Waiting>
    var connections: map<string, Option<Pairing>>   // None: set to null by closeConnection
    var clients: map<ClientId, ClientRec>            // every socket that ever connected
    var nextClient: nat
    var outbox: seq<Outgoing>

    /** Every client the tables or a peer link name is a known socket. */
    ghost predicate Valid()
      reads this`clients, this`nextClient, this`peersWaiting, this`connections
    {
      && (forall c :: c in clients ==> c < nextClient)
      && (forall c :: c in clients && clients[c].peer.Some? ==> clients[c].peer.value in clients)
      && (forall k :: k in peersWaiting ==> Registered(peersWaiting[k], clients))
      && (forall k :: k in connections && connections[k].Some? ==>
            connections[k].value.newcomer in clients && connections[k].value.waiting in clients)
    }

    /** Nobody waits, nobody is paired, no link exists. */
    ghost predicate Dormant()
      reads this
    {
      peersWaiting == map[] && connections == map[] && forall c :: c in clients ==> clients[c].peer.None?
    }

    constructor ()
      ensures Valid() && Dormant()
      ensures clients == map[] && nextClient == 0 && outbox == []
    {
      peersWaiting := map[];
      connections := map[];
      clients := map[];
      nextClient := 0;
      outbox := [];
    }

    /** The `connection` event: a new socket, with no code and no peer. */
    method AcceptConnection() returns (c: ClientId)
      requires Valid()
      modifies this`clients, this`nextClient
      ensures Valid()
      ensures c == old(nextClient) && c !in old(clients) && nextClient == c + 1
      ensures clients == old(clients)[c := ClientRec(None, None)]
    {
      c := nextClient;
      clients := clients[c := ClientRec(None, None)];
      nextClient := nextClient + 1;
    }

    /** What `message.pair` does for client `c` and code `code`, as a
        relation between the state before and after.
        - busy code: one `busy` to `c`, nothing else changes;
        - otherwise `c.pairCode` is set, then, by the waiting entry:
          none: nothing more (nobody is queued);
          a bare client: `forEach` throws;
          a list `ws`: every entry equal to `c` appends `c` once more, every
          other entry `w` is matched: both link to each other, the code's
          connection becomes `[c, w]`, and `w` then `c` get `peer.found`. */
    twostate predicate PairEffect(c: ClientId, code: string, o: Outcome)
      reads this
    {
      && old(c in clients)
      && clients.Keys == old(clients.Keys) && nextClient == old(nextClient)
      && (Busy(old(connections), code) ==>
            && o == Completed
            && outbox == old(outbox) + [Outgoing(c, Envelope("busy", Undefined))]
            && clients == old(clients) && peersWaiting == old(peersWaiting) && connections == old(connections))
      && (!Busy(old(connections), code) && code !in old(peersWaiting) ==>
            && o == Completed
            && clients == old(clients)[c := old(clients)[c].(pairCode := Some(code))]
            && peersWaiting == old(peersWaiting) && connections == old(connections) && outbox == old(outbox))
      && (!Busy(old(connections), code) && code in old(peersWaiting) && old(peersWaiting)[code].Lone? ==>
            && o == Threw
            && clients == old(clients)[c := old(clients)[c].(pairCode := Some(code))]
            && peersWaiting == old(peersWaiting) && connections == old(connections) && outbox == old(outbox))
      && (!Busy(old(connections), code) && code in old(peersWaiting) && old(peersWaiting)[code].List? ==>
            var ws := old(peersWaiting)[code].clients;
            var others := Others(ws, c);
            && o == Completed
            && peersWaiting == old(peersWaiting)[code := List(ws + Repeat(c, Count(ws, c)))]
            && old(c in clients && forall w :: w in others ==> w in clients)
            && clients == LinkAll(old(clients)[c := old(clients)[c].(pairCode := Some(code))], c, others)
            && outbox == old(outbox) + Announcements(c, others)
            && (others == [] ==> connections == old(connections))
            && (others != [] ==> connections == old(connections)[code := Some(Pairing(c, others[|others| - 1]))]))
    }

    /** `message.pair` (server/index.js:99-130), as written. */
    method Pair(c: ClientId, code: string) returns (o: Outcome)
      requires Valid() && c in clients
      modifies this`peersWaiting, this`connections, this`clients, this`outbox
      ensures Valid()
      ensures PairEffect(c, code, o)
    {
      if Busy(connections, code) {
        outbox := outbox + [Outgoing(c, Envelope("busy", Undefined))];
        return Completed;
      }
      clients := clients[c := clients[c].(pairCode := Some(code))];
      if code !in peersWaiting {
        return Completed;   // (peersWaiting[code] || []).forEach: nothing to visit
      }
      if peersWaiting[code].Lone? {
        return Threw;       // a bare client has no forEach
      }
      MatchAll(c, code);
      o := Completed;
    }

    /** The `forEach` over a waiting list, stated as a whole: `c` is pushed
        once per entry equal to it, linked with every other entry in turn, and
        the connection ends up naming the last of them. */
    method MatchAll(c: ClientId, code: string)
      requires Valid() && c in clients
      requires code in peersWaiting && peersWaiting[code].List?
      modifies this`peersWaiting, this`connections, this`clients, this`outbox
      ensures Valid()
      ensures var ws := old(peersWaiting)[code].clients;
              var others := Others(ws, c);
              && peersWaiting == old(peersWaiting)[code := List(ws + Repeat(c, Count(ws, c)))]
              && (forall w :: w in others ==> w in old(clients))
              && clients == LinkAll(old(clients), c, others)
              && outbox == old(outbox) + Announcements(c, others)
              && (others == [] ==> connections == old(connections))
              && (others != [] ==> connections == old(connections)[code := Some(Pairing(c, others[|others| - 1]))])
    {
      ghost var before := Tables();
      assert Registered(before.peersWaiting[code], before.clients);
      MatchWaiting(c, code);
      MatchFoldWhole(before, c, code);
    }

    /** The four tables, as a value. */
    function Tables(): State
      reads this`peersWaiting, this`connections, this`clients, this`outbox
    {
      State(peersWaiting, connections, clients, outbox)
    }

    /** The `forEach` over the code's waiting list, entry by entry (entries
        pushed meanwhile are not visited). */
    method MatchWaiting(c: ClientId, code: string)
      requires Valid() && c in clients
      requires code in peersWaiting && peersWaiting[code].List?
      modifies this`peersWaiting, this`connections, this`clients, this`outbox
      ensures Valid()
      ensures Tables() == MatchFold(old(Tables()), c, code, old(peersWaiting)[code].clients)
    {
      var ws := peersWaiting[code].clients;
      ghost var t0 := Tables();
      assert forall k :: 0 <= k < |ws| ==> ws[k] in t0.clients;
      for i := 0 to |ws|
        invariant Valid() && c in clients
        invariant clients.Keys == t0.clients.Keys
        invariant Listed(Tables(), code)
        invariant Tables() == MatchFold(t0, c, code, ws[..i])
      {
        assert ws[..i + 1][..i] == ws[..i] && ws[i] in clients;
        assert MatchFold(t0, c, code, ws[..i + 1]) == MatchStep(MatchFold(t0, c, code, ws[..i]), c, code, ws[i]);
        MatchOne(c, code, ws[i]);
      }
      assert ws[..|ws|] == ws;
    }

    /** One turn of the `forEach`. */
    method MatchOne(c: ClientId, code: string, w: ClientId)
      requires Valid() && c in clients && w in clients
      requires Listed(Tables(), code)
      modifies this`peersWaiting, this`connections, this`clients, this`outbox
      ensures Valid()
      ensures Tables() == MatchStep(old(Tables()), c, code, w)
    {
      if w != c {
        clients := Link(Link(clients, c, w), w, c);
        connections := connections[code := Some(Pairing(c, w))];
        outbox := outbox + [PeerFound(w, false), PeerFound(c, true)];
      } else {
        peersWaiting := peersWaiting[code := List(peersWaiting[code].clients + [c])];
      }
    }

    /** `message.pair` as evidently intended: a client pairing on a code
        nobody waits on is queued as the waiting client, as the unreachable
        `peersWaiting[pairCode] = [client]` (line 126) would do.  Every other
        case is `Pair`. */
    method PairOrQueue(c: ClientId, code: string) returns (o: Outcome)
      requires Valid() && c in clients
      modifies this`peersWaiting, this`connections, this`clients, this`outbox
      ensures Valid()
      ensures !Busy(old(connections), code) && code !in old(peersWaiting) ==>
        && o == Completed
        && clients == old(clients)[c := old(clients)[c].(pairCode := Some(code))]
        && peersWaiting == old(peersWaiting)[code := List([c])]
        && connections == old(connections) && outbox == old(outbox)
      ensures Busy(old(connections), code) || code in old(peersWaiting) ==> PairEffect(c, code, o)
    {
      if !Busy(connections, code) && code !in peersWaiting {
        clients := clients[c := clients[c].(pairCode := Some(code))];
        peersWaiting := peersWaiting[code := List([c])];
        return Completed;
      }
      o := Pair(c, code);
    }

    /** Forward `{kind, data}` to the client's peer, if it has one. */
    method Relay(c: ClientId, kind: string, data: Data)
      requires c in clients
      modifies this`outbox
      ensures outbox == old(outbox) + (if clients[c].peer.Some? then [Outgoing(clients[c].peer.value, Envelope(kind, data))] else [])
    {
      if clients[c].peer.Some? {
        outbox := outbox + [Outgoing(clients[c].peer.value, Envelope(kind, data))];
      }
    }

    /** `message.data` (server/index.js:91-97). */
    method OnData(c: ClientId, d: Data)
      requires c in clients
      modifies this`outbox
      ensures outbox == old(outbox) + (if clients[c].peer.Some? then [Outgoing(clients[c].peer.value, Envelope("data", d))] else [])
    {
      Relay(c, "data", d);
    }

    /** `message.rtc.signal` (server/index.js:132-140). */
    method OnRtcSignal(c: ClientId, d: Data)
      requires c in clients
      modifies this`outbox
      ensures outbox == old(outbox) + (if clients[c].peer.Some? then [Outgoing(clients[c].peer.value, Envelope("rtc.signal", d))] else [])
    {
      Relay(c, "rtc.signal", d);
    }

    /** `message.rtc.connect` (server/index.js:142-148): forwarded without data. */
    method OnRtcConnect(c: ClientId)
      requires c in clients
      modifies this`outbox
      ensures outbox == old(outbox) + (if clients[c].peer.Some? then [Outgoing(clients[c].peer.value, Envelope("rtc.connect", Undefined))] else [])
    {
      Relay(c, "rtc.connect", Undefined);
    }

    /** `closeConnection(code)`: both members of the connection lose their
        peer and the entry becomes null; throws when the entry is missing or
        already null. */
    method CloseConnection(code: string) returns (o: Outcome)
      requires Valid()
      modifies this`connections, this`clients
      ensures Valid()
      ensures !Busy(old(connections), code) ==>
        o == Threw && connections == old(connections) && clients == old(clients)
      ensures Busy(old(connections), code) ==>
        && o == Completed
        && connections == old(connections)[code := None]
        && clients == Unlinked(old(clients), old(connections)[code].value)
    {
      if !Busy(connections, code) {
        return Threw;
      }
      clients := Unlinked(clients, connections[code].value);
      connections := connections[code := None];
      o := Completed;
    }

    /** What `close` does to the waiting list of the client's code before
        looking at its peer: the list is cut at the client. */
    ghost function WaitingAfterLeave(pw: map<string, Waiting>, key: string, c: ClientId): (r: map<string, Waiting>)
      ensures r.Keys == pw.Keys
      ensures forall k :: k in pw && k != key ==> r[k] == pw[k]
      ensures key in pw && pw[key].List? && c in pw[key].clients ==>
        && r[key].List? && r[key].clients <= pw[key].clients && c !in r[key].clients
        && pw[key].clients[|r[key].clients|] == c
      ensures !(key in pw && pw[key].List? && c in pw[key].clients) ==> r == pw
    {
      if key in pw && pw[key].List? && c in pw[key].clients
      then pw[key := List(Truncated(pw[key].clients, c))]
      else pw
    }

    /** The socket's `close` (server/index.js:150-167).  A client found in its
        code's waiting list cuts the list at itself (a bare client there
        makes `indexOf` throw).  A client with a peer then leaves that peer
        as the code's bare waiting entry and closes the connection, which
        throws when the code has no live connection. */
    method Close(c: ClientId) returns (o: Outcome)
      requires Valid() && c in clients
      modifies this`peersWaiting, this`connections, this`clients
      ensures Valid()
      ensures var key := KeyOf(old(clients)[c].pairCode);
        key in old(peersWaiting) && old(peersWaiting)[key].Lone? ==>
          o == Threw && peersWaiting == old(peersWaiting) && connections == old(connections) && clients == old(clients)
      ensures var key := KeyOf(old(clients)[c].pairCode);
        !(key in old(peersWaiting) && old(peersWaiting)[key].Lone?) && old(clients)[c].peer.None? ==>
          o == Completed && peersWaiting == WaitingAfterLeave(old(peersWaiting), key, c)
          && connections == old(connections) && clients == old(clients)
      ensures var key := KeyOf(old(clients)[c].pairCode);
        !(key in old(peersWaiting) && old(peersWaiting)[key].Lone?) && old(clients)[c].peer.Some? ==>
          && peersWaiting == WaitingAfterLeave(old(peersWaiting), key, c)[key := Lone(old(clients)[c].peer.value)]
          && (!Busy(old(connections), key) ==> o == Threw && connections == old(connections) && clients == old(clients))
          && (Busy(old(connections), key) ==>
                && o == Completed
                && connections == old(connections)[key := None]
                && clients == Unlinked(old(clients), old(connections)[key].value))
    {
      var key := KeyOf(clients[c].pairCode);
      if key in peersWaiting {
        if peersWaiting[key].Lone? {
          return Threw;
        }
        var ws := peersWaiting[key].clients;
        if IndexOf(ws, c) > -1 {
          peersWaiting := peersWaiting[key := List(Truncated(ws, c))];
        }
      }
      o := Completed;
      if clients[c].peer.Some? {
        peersWaiting := peersWaiting[key := Lone(clients[c].peer.value)];
        o := CloseConnection(key);
      }
    }

    /** The socket's `message` listener: parse, then run the listener of
        `message.<type>`.  A frame that is not JSON throws; a type nobody
        listens to is ignored. */
    method OnMessage(c: ClientId, m: Incoming) returns (o: Outcome)
      requires Valid() && c in clients
      modifies this`peersWaiting, this`connections, this`clients, this`outbox
      ensures Valid()
      ensures m.Malformed? || m.env.kind !in {"pair", "data", "rtc.signal", "rtc.connect"} ==>
        && o == (if m.Malformed? then Threw else Completed)
        && peersWaiting == old(peersWaiting) && connections == old(connections)
        && clients == old(clients) && outbox == old(outbox)
      ensures m.Parsed? && m.env.kind == "pair" ==> PairEffect(c, PropertyKey(m.env.data), o)
      ensures m.Parsed? && m.env.kind in {"data", "rtc.signal", "rtc.connect"} ==>
        && o == Completed
        && peersWaiting == old(peersWaiting) && connections == old(connections) && clients == old(clients)
        && outbox == old(outbox) + (if clients[c].peer.Some? then [Outgoing(clients[c].peer.value,
                                      Envelope(m.env.kind, if m.env.kind == "rtc.connect" then Undefined else m.env.data))]
                                    else [])
    {
      if m.Malformed? {
        return Threw;
      }
      var env := m.env;
      o := Completed;
      if env.kind == "pair" {
        o := Pair(c, PropertyKey(env.data));
      } else if env.kind == "data" {
        OnData(c, env.data);
      } else if env.kind == "rtc.signal" {
        OnRtcSignal(c, env.data);
      } else if env.kind == "rtc.connect" {
        OnRtcConnect(c);
      }
    }
  }
}
