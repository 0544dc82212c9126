/**
  UDP through one entry and one exit: every datagram carries a 4-byte prefix (source port, service, port index), the
  entry remembers the last address seen per source port, and the exit keeps one service connection per source port.
*/
module UdpMux {
  import opened Wrappers
  import opened Machine
  import Framing

  const PREFIX_LEN: nat := 4

  type Port = x: int | 0 <= x < 65536

  datatype UdpAddr = UdpAddr(ip: string, port: Port)

  function PortToConnID(port: Port): (b: seq<Byte>)
    ensures |b| == 2
  {
    Framing.Little(port, 2)
  }

  function ConnIDToPort(data: seq<Byte>): Port
    requires |data| >= 2
  {
    var low: int, high: int := data[0], data[1];
    low + 256 * high
  }

  lemma PortRoundTrip(port: Port, rest: seq<Byte>)
    ensures ConnIDToPort(PortToConnID(port) + rest) == port
  {
    LittleTwo(port);
  }

  lemma LittleTwo(port: Port)
    ensures PortToConnID(port) == [port % 256, port / 256]
  {
    assert Framing.Little(port / 256, 1) == [port / 256];
  }

  lemma ConnIDRoundTrip(data: seq<Byte>)
    requires |data| >= 2
    ensures PortToConnID(ConnIDToPort(data)) == data[..2]
  {
    LittleTwo(ConnIDToPort(data));
  }

  function Prefix(port: Port, serviceID: Byte, portID: Byte): (b: seq<Byte>)
    ensures |b| == PREFIX_LEN
  {
    PortToConnID(port) + [serviceID, portID]
  }

  // A data packet starts like a control packet exactly when port, service and port index are all zero.
  lemma LooksLikeControl(port: Port, serviceID: Byte, portID: Byte)
    ensures Prefix(port, serviceID, portID) == [0, 0, 0, 0] <==> port == 0 && serviceID == 0 && portID == 0
  {
    LittleTwo(port);
    var p := Prefix(port, serviceID, portID);
    assert p == [port % 256, port / 256, serviceID, portID];
  }

  lemma PrefixParts(port: Port, serviceID: Byte, portID: Byte, payload: seq<Byte>)
    ensures var data := Prefix(port, serviceID, portID) + payload;
            && data[..PREFIX_LEN] == Prefix(port, serviceID, portID) && data[PREFIX_LEN..] == payload
            && ConnIDToPort(data) == port && data[2] == serviceID && data[3] == portID
  {
    LittleTwo(port);
  }

  /* ----- The exit's connections to its services ----- */

  // A datagram sent by `addr` to local socket number `socket`.
  datatype Request = Request(addr: UdpAddr, socket: Byte)

  // A connection to a service port; `users` is history: the requests it has carried.
  datatype ServiceConn = ServiceConn(prefix: seq<Byte>, target: nat, users: set<Request>)

  function ServicePort(services: seq<seq<nat>>, serviceID: Byte, portID: Byte): Option<nat> {
    if serviceID < |services| && portID < |services[serviceID]| then Some(services[serviceID][portID]) else None
  }

  /** The exit's cache of service connections, keyed by source port only. */
  class ExitMux {
    const services: seq<seq<nat>>
    var cache: map<Port, nat>
    var conns: seq<ServiceConn>

    constructor (services: seq<seq<nat>>)
      ensures this.services == services && cache == map[] && conns == []
    {
      this.services := services;
      cache, conns := map[], [];
    }

    // dialOk is the outcome of connecting to the service, when that is attempted.
    method GetServiceConn(data: seq<Byte>, dialOk: bool) returns (r: Option<nat>)
      requires |data| >= PREFIX_LEN
      modifies this
      ensures (r, cache, conns) == Lookup(services, old(cache), old(conns), data, dialOk)
    {
      var connKey := ConnIDToPort(data);
      if connKey in cache {
        return Some(cache[connKey]);
      }
      var port := ServicePort(services, data[2], data[3]);
      if port.None? || !dialOk {
        return None;
      }
      conns := conns + [ServiceConn(data[..PREFIX_LEN], port.value, {})];
      cache := cache[connKey := |conns| - 1];
      return Some(|conns| - 1);
    }
  }

  function Lookup(services: seq<seq<nat>>, cache: map<Port, nat>, conns: seq<ServiceConn>, data: seq<Byte>, dialOk: bool)
    : (Option<nat>, map<Port, nat>, seq<ServiceConn>)
    requires |data| >= PREFIX_LEN
  {
    var connKey := ConnIDToPort(data);
    if connKey in cache then (Some(cache[connKey]), cache, conns)
    else
      var port := ServicePort(services, data[2], data[3]);
      if port.None? || !dialOk then (None, cache, conns)
      else (Some(|conns|), cache[connKey := |conns|], conns + [ServiceConn(data[..PREFIX_LEN], port.value, {})])
  }

  // A known source port gets its connection; otherwise a connection to the listed port is made, which answers under the
  // request's prefix and which the port gets from then on; without such a port or connection nothing changes.
  lemma LookupMeans(services: seq<seq<nat>>, cache: map<Port, nat>, conns: seq<ServiceConn>, data: seq<Byte>, dialOk: bool)
    requires |data| >= PREFIX_LEN
    ensures var port: int := (data[0] as int) + 256 * (data[1] as int);
            var listed := data[2] < |services| && data[3] < |services[data[2]]|;
            && (port in cache ==> Lookup(services, cache, conns, data, dialOk) == (Some(cache[port]), cache, conns))
            && (port !in cache && !(listed && dialOk) ==> Lookup(services, cache, conns, data, dialOk) == (None, cache, conns))
            && (port !in cache && listed && dialOk ==>
                  Lookup(services, cache, conns, data, dialOk)
                  == (Some(|conns|), cache[port := |conns|],
                      conns + [ServiceConn([data[0], data[1], data[2], data[3]], services[data[2]][data[3]], {})]))
  {
    assert data[..PREFIX_LEN] == [data[0], data[1], data[2], data[3]];
  }

  /* ----- The entry's table of client addresses ----- */

  datatype Config = Config(sockets: nat, serviceID: Byte, services: seq<seq<nat>>)

  // A client's datagram: its sender is remembered under the source port, and it gets its prefix.
  function Sent(c: Config, clientAddr: map<Port, UdpAddr>, request: Request, payload: seq<Byte>)
    : (map<Port, UdpAddr>, seq<Byte>)
  {
    (clientAddr[request.addr.port := request.addr], Prefix(request.addr.port, c.serviceID, request.socket) + payload)
  }

  // A datagram from the server: the socket it leaves from, the address it goes to, and its payload.
  function Route(c: Config, clientAddr: map<Port, UdpAddr>, data: seq<Byte>): Option<(Byte, UdpAddr, seq<Byte>)> {
    if |data| < PREFIX_LEN || data[3] >= c.sockets || ConnIDToPort(data) !in clientAddr then None
    else Some((data[3], clientAddr[ConnIDToPort(data)], data[PREFIX_LEN..]))
  }

  // A reply under the prefix of a request goes back to the socket and address of that request, until another client
  // uses the same source port.
  lemma ReplyFollowsRequest(c: Config, clientAddr: map<Port, UdpAddr>, request: Request, payload: seq<Byte>, reply: seq<Byte>)
    ensures var (clients, data) := Sent(c, clientAddr, request, payload);
            && data[PREFIX_LEN..] == payload
            && (Route(c, clients, data[..PREFIX_LEN] + reply) == Some((request.socket, request.addr, reply))
                <==> request.socket < c.sockets)
  {
    PrefixParts(request.addr.port, c.serviceID, request.socket, payload);
    PrefixParts(request.addr.port, c.serviceID, request.socket, reply);
  }

  // A datagram from the server is handed on exactly if it is long enough and its socket and source port are known.
  lemma RouteIff(c: Config, clientAddr: map<Port, UdpAddr>, data: seq<Byte>, socket: Byte, addr: UdpAddr, payload: seq<Byte>)
    ensures Route(c, clientAddr, data) == Some((socket, addr, payload))
       <==> && |data| >= 4 && data[3] == socket && socket < c.sockets && data[4..] == payload
            && var port: int := (data[0] as int) + 256 * (data[1] as int);
               port in clientAddr && clientAddr[port] == addr
  {
  }

  /** The entry's side, keyed by source port. */
  class EntryMux {
    const config: Config
    var clientAddr: map<Port, UdpAddr>
    var isClosed: bool

    constructor (config: Config)
      ensures this.config == config && clientAddr == map[] && !isClosed
    {
      this.config := config;
      clientAddr, isClosed := map[], false;
    }

    method FromClient(request: Request, payload: seq<Byte>) returns (data: seq<Byte>)
      modifies this`clientAddr
      ensures (clientAddr, data) == Sent(config, old(clientAddr), request, payload)
    {
      clientAddr := clientAddr[request.addr.port := request.addr];
      var connID := PortToConnID(request.addr.port);
      data := connID + [config.serviceID, request.socket] + payload;
    }

    // A datagram without a complete prefix closes the entry.
    method FromServer(data: seq<Byte>) returns (r: Option<(Byte, UdpAddr, seq<Byte>)>)
      modifies this`isClosed
      ensures isClosed <==> old(isClosed) || |data| < PREFIX_LEN
      ensures r == Route(config, clientAddr, data)
    {
      if |data| < PREFIX_LEN {
        isClosed := true;
        return None;
      }
      var portID := data[3];
      var port := ConnIDToPort(data);
      if portID >= config.sockets || port !in clientAddr {
        return None;
      }
      return Some((portID, clientAddr[port], data[PREFIX_LEN..]));
    }
  }

  /* ----- Entry and exit as a step system ----- */

  // A datagram on the network, with the request or the service connection it stems from.
  datatype Upstream = Upstream(data: seq<Byte>, origin: Request)
  datatype Downstream = Downstream(data: seq<Byte>, conn: nat)

  // A request's payload handed to a service, and the connection it went over.
  datatype Forward = Forward(conn: nat, origin: Request, payload: seq<Byte>)

  // A reply handed to a client: the socket it leaves from, the address it goes to, the connection it came over.
  datatype Delivery = Delivery(socket: Byte, addr: UdpAddr, conn: nat, payload: seq<Byte>)

  // Datagrams may be lost, duplicated and reordered: once sent, they may arrive at any time. `requests`, `sent` and
  // `replied` are history: who sent requests, with which payloads, and what came back over each service connection.
  datatype State = State(
    clientAddr: map<Port, UdpAddr>, toExit: set<Upstream>,
    cache: map<Port, nat>, conns: seq<ServiceConn>, toEntry: set<Downstream>,
    requests: set<Request>, sent: set<(Request, seq<Byte>)>, replied: set<(nat, seq<Byte>)>,
    forwards: seq<Forward>, deliveries: seq<Delivery>)

  datatype Step =
    | ClientSend(request: Request, payload: seq<Byte>)
    | ExitReceive(up: Upstream, dialOk: bool)
    | ServiceReply(conn: nat, payload: seq<Byte>)
    | EntryReceive(down: Downstream)
    | ForgetClient(port: Port)
    | ForgetConn(port: Port)

  const INIT := State(map[], {}, map[], [], {}, {}, {}, {}, [], [])

  predicate Enabled(c: Config, s: State, step: Step) {
    match step
    case ClientSend(request, _) => request.socket < c.sockets
    case ExitReceive(up, _) => up in s.toExit && |up.data| >= PREFIX_LEN
    case ServiceReply(conn, _) => conn < |s.conns|
    case EntryReceive(down) => down in s.toEntry && |down.data| >= PREFIX_LEN
    case ForgetClient(_) => true
    case ForgetConn(_) => true
  }

  function Apply(c: Config, s: State, step: Step): State
    requires Enabled(c, s, step)
  {
    match step
    case ClientSend(request, payload) =>
      var (clientAddr, data) := Sent(c, s.clientAddr, request, payload);
      s.(clientAddr := clientAddr, toExit := s.toExit + {Upstream(data, request)},
         requests := s.requests + {request}, sent := s.sent + {(request, payload)})
    case ExitReceive(up, dialOk) =>
      var (found, cache, conns) := Lookup(c.services, s.cache, s.conns, up.data, dialOk);
      if found.None? || found.value >= |conns| then s
      else s.(cache := cache, conns := Used(conns, found.value, up.origin),
              forwards := s.forwards + [Forward(found.value, up.origin, up.data[PREFIX_LEN..])])
    case ServiceReply(conn, payload) =>
      s.(toEntry := s.toEntry + {Downstream(s.conns[conn].prefix + payload, conn)}, replied := s.replied + {(conn, payload)})
    case EntryReceive(down) =>
      match Route(c, s.clientAddr, down.data) {
        case None => s
        case Some((socket, addr, payload)) => s.(deliveries := s.deliveries + [Delivery(socket, addr, down.conn, payload)])
      }
    case ForgetClient(port) => s.(clientAddr := s.clientAddr - {port})
    case ForgetConn(port) => s.(cache := s.cache - {port})
  }

  function Used(conns: seq<ServiceConn>, i: nat, origin: Request): seq<ServiceConn>
    requires i < |conns|
  {
    conns[i := conns[i].(users := conns[i].users + {origin})]
  }

  predicate Legal(c: Config, s: State, steps: seq<Step>)
    decreases |steps|
  {
    steps == [] || (Enabled(c, s, steps[0]) && Legal(c, Apply(c, s, steps[0]), steps[1..]))
  }

  function Play(c: Config, s: State, steps: seq<Step>): State
    requires Legal(c, s, steps)
    decreases |steps|
  {
    if steps == [] then s else Play(c, Apply(c, s, steps[0]), steps[1..])
  }

  // The socket leads to a port of the service at the exit.
  predicate HasService(c: Config, r: Request) {
    ServicePort(c.services, c.serviceID, r.socket).Some?
  }

  // The exit lists this port for the service, under the number of the entry's socket.
  predicate LeadsTo(c: Config, socket: Byte, target: nat) {
    c.serviceID < |c.services| && socket < |c.services[c.serviceID]| && target == c.services[c.serviceID][socket]
  }

  lemma HasServiceIff(c: Config, r: Request)
    ensures HasService(c, r) <==> exists target :: LeadsTo(c, r.socket, target)
  {
    if HasService(c, r) {
      assert LeadsTo(c, r.socket, c.services[c.serviceID][r.socket]);
    }
  }

  // A request that reaches a service shares its source port with no other address or local socket.
  ghost predicate Disciplined(c: Config, requests: set<Request>) {
    forall a, b :: a in requests && b in requests && a.addr.port == b.addr.port && HasService(c, a) ==> a == b
  }

  // The network forgets nothing: whatever was sent may still arrive, once more or late, after any step.
  lemma SentStays(c: Config, s: State, step: Step)
    requires Enabled(c, s, step)
    ensures var s' := Apply(c, s, step);
            && s.toExit <= s'.toExit && s.toEntry <= s'.toEntry && s.requests <= s'.requests
            && s.forwards <= s'.forwards && s.deliveries <= s'.deliveries
  {
  }

  // Entries of either address cache may expire at any time, and nothing else with them.
  lemma ExpiryMeans(c: Config, s: State, port: Port)
    ensures Enabled(c, s, ForgetClient(port)) && Apply(c, s, ForgetClient(port)) == s.(clientAddr := s.clientAddr - {port})
    ensures Enabled(c, s, ForgetConn(port)) && Apply(c, s, ForgetConn(port)) == s.(cache := s.cache - {port})
  {
  }

  predicate Carries(c: Config, prefix: seq<Byte>, r: Request) {
    prefix == Prefix(r.addr.port, c.serviceID, r.socket)
  }

  ghost predicate UpstreamOk(c: Config, s: State) {
    forall up :: up in s.toExit ==>
      && up.origin in s.requests && |up.data| >= PREFIX_LEN
      && Carries(c, up.data[..PREFIX_LEN], up.origin)
      && (up.origin, up.data[PREFIX_LEN..]) in s.sent
  }

  // All users of a connection sent the prefix it answers with, and it leads to the port they asked for.
  ghost predicate ConnOk(c: Config, requests: set<Request>, conn: ServiceConn) {
    && |conn.prefix| == PREFIX_LEN
    && conn.users != {}
    && forall u :: u in conn.users ==>
         && u in requests
         && Carries(c, conn.prefix, u)
         && ServicePort(c.services, c.serviceID, u.socket) == Some(conn.target)
  }

  ghost predicate ConnsOk(c: Config, s: State) {
    && (forall i :: 0 <= i < |s.conns| ==> ConnOk(c, s.requests, s.conns[i]))
    && (forall port :: port in s.cache ==>
          s.cache[port] < |s.conns| && ConnIDToPort(s.conns[s.cache[port]].prefix) == port)
  }

  ghost predicate RepliesOk(c: Config, s: State) {
    && (forall down :: down in s.toEntry ==>
          && down.conn < |s.conns| && |down.data| >= PREFIX_LEN
          && down.data[..PREFIX_LEN] == s.conns[down.conn].prefix
          && (down.conn, down.data[PREFIX_LEN..]) in s.replied)
    && (forall port :: port in s.clientAddr ==>
          s.clientAddr[port].port == port && exists r :: r in s.requests && r.addr == s.clientAddr[port])
  }

  // A reply goes to the very address and leaves from the very socket of every request its connection ever carried.
  ghost predicate DeliveryOk(s: State, d: Delivery) {
    && d.conn < |s.conns| && s.conns[d.conn].users == {Request(d.addr, d.socket)}
    && (d.conn, d.payload) in s.replied
  }

  ghost predicate DeliveriesOk(s: State) {
    forall i :: 0 <= i < |s.deliveries| ==> DeliveryOk(s, s.deliveries[i])
  }

  // What a service receives is what some request carried, over a connection that the request uses.
  ghost predicate ForwardOk(s: State, f: Forward) {
    f.conn < |s.conns| && f.origin in s.conns[f.conn].users && (f.origin, f.payload) in s.sent
  }

  ghost predicate ForwardsOk(s: State) {
    forall i :: 0 <= i < |s.forwards| ==> ForwardOk(s, s.forwards[i])
  }

  ghost predicate Inv(c: Config, s: State) {
    UpstreamOk(c, s) && ConnsOk(c, s) && RepliesOk(c, s) && ForwardsOk(s) && DeliveriesOk(s)
  }

  lemma CarriesPort(c: Config, data: seq<Byte>, r: Request)
    requires |data| >= PREFIX_LEN && Carries(c, data[..PREFIX_LEN], r)
    ensures ConnIDToPort(data) == r.addr.port && data[2] == c.serviceID && data[3] == r.socket
  {
    PrefixParts(r.addr.port, c.serviceID, r.socket, data[PREFIX_LEN..]);
    assert data == data[..PREFIX_LEN] + data[PREFIX_LEN..];
  }

  lemma SendKeepsInv(c: Config, s: State, request: Request, payload: seq<Byte>)
    requires Inv(c, s) && Enabled(c, s, ClientSend(request, payload))
    ensures Inv(c, Apply(c, s, ClientSend(request, payload)))
  {
    PrefixParts(request.addr.port, c.serviceID, request.socket, payload);
    var s' := Apply(c, s, ClientSend(request, payload));
    forall port | port in s'.clientAddr
      ensures s'.clientAddr[port].port == port && exists r :: r in s'.requests && r.addr == s'.clientAddr[port]
    {
      if port == request.addr.port {
        assert request in s'.requests;
      } else {
        var r :| r in s.requests && r.addr == s.clientAddr[port];
        assert r in s'.requests;
      }
    }
  }

  // Requests with one prefix are one request, given the discipline.
  lemma SamePrefixSameRequest(c: Config, requests: set<Request>, prefix: seq<Byte>, a: Request, b: Request)
    requires Disciplined(c, requests) && HasService(c, a) && a in requests && b in requests && |prefix| == PREFIX_LEN
    requires Carries(c, prefix, a) && b.addr.port == ConnIDToPort(prefix)
    ensures a == b
  {
    assert prefix[..PREFIX_LEN] == prefix;
    CarriesPort(c, prefix, a);
  }

  // A cached connection is reused by the one request it belongs to.
  lemma ReuseKeepsConns(c: Config, s: State, up: Upstream, dialOk: bool)
    requires Inv(c, s) && Enabled(c, s, ExitReceive(up, dialOk)) && Disciplined(c, s.requests)
    requires up.origin.addr.port in s.cache
    ensures var i := s.cache[up.origin.addr.port];
            && up.origin in s.conns[i].users
            && Apply(c, s, ExitReceive(up, dialOk))
               == s.(forwards := s.forwards + [Forward(i, up.origin, up.data[PREFIX_LEN..])])
  {
    CarriesPort(c, up.data, up.origin);
    var i := s.cache[up.origin.addr.port];
    var conn := s.conns[i];
    assert ConnOk(c, s.requests, conn);
    var u :| u in conn.users;
    SamePrefixSameRequest(c, s.requests, conn.prefix, u, up.origin);
    assert conn.users + {up.origin} == conn.users;
    assert Used(s.conns, i, up.origin) == s.conns;
  }

  lemma NewConnOk(c: Config, s: State, up: Upstream, target: nat)
    requires UpstreamOk(c, s) && up in s.toExit
    requires ServicePort(c.services, c.serviceID, up.origin.socket) == Some(target)
    ensures ConnOk(c, s.requests, ServiceConn(up.data[..PREFIX_LEN], target, {up.origin}))
    ensures ConnIDToPort(up.data[..PREFIX_LEN]) == up.origin.addr.port
  {
    var prefix := up.data[..PREFIX_LEN];
    assert prefix[..PREFIX_LEN] == prefix;
    CarriesPort(c, prefix, up.origin);
  }

  lemma ReuseKeepsInv(c: Config, s: State, up: Upstream, dialOk: bool)
    requires Inv(c, s) && Enabled(c, s, ExitReceive(up, dialOk)) && Disciplined(c, s.requests)
    requires up.origin.addr.port in s.cache
    ensures Inv(c, Apply(c, s, ExitReceive(up, dialOk)))
  {
    ReuseKeepsConns(c, s, up, dialOk);
    assert (up.origin, up.data[PREFIX_LEN..]) in s.sent;
  }

  // A new connection that carries a first request.
  function Dialled(s: State, port: Port, conn: ServiceConn, f: Forward): State {
    s.(cache := s.cache[port := |s.conns|], conns := s.conns + [conn], forwards := s.forwards + [f])
  }

  lemma DialledKeepsInv(c: Config, s: State, port: Port, conn: ServiceConn, f: Forward)
    requires Inv(c, s) && ConnOk(c, s.requests, conn) && ConnIDToPort(conn.prefix) == port
    requires f.conn == |s.conns| && f.origin in conn.users && (f.origin, f.payload) in s.sent
    ensures Inv(c, Dialled(s, port, conn, f))
  {
    var s' := Dialled(s, port, conn, f);
    assert forall i :: 0 <= i < |s.conns| ==> s'.conns[i] == s.conns[i];
    assert ConnsOk(c, s') && RepliesOk(c, s');
    assert ForwardOk(s', f);
    assert forall i :: 0 <= i < |s.forwards| ==> ForwardOk(s, s.forwards[i]) ==> ForwardOk(s', s.forwards[i]);
  }

  lemma DialKeepsInv(c: Config, s: State, up: Upstream)
    requires Inv(c, s) && Enabled(c, s, ExitReceive(up, true)) && up.origin.addr.port !in s.cache
    requires ServicePort(c.services, c.serviceID, up.origin.socket).Some?
    ensures Inv(c, Apply(c, s, ExitReceive(up, true)))
  {
    CarriesPort(c, up.data, up.origin);
    var target := ServicePort(c.services, c.serviceID, up.origin.socket).value;
    NewConnOk(c, s, up, target);
    var conn := ServiceConn(up.data[..PREFIX_LEN], target, {up.origin});
    var f := Forward(|s.conns|, up.origin, up.data[PREFIX_LEN..]);
    DialledKeepsInv(c, s, up.origin.addr.port, conn, f);
    assert Apply(c, s, ExitReceive(up, true)) == Dialled(s, up.origin.addr.port, conn, f) by {
      assert {} + {up.origin} == {up.origin};
    }
  }

  lemma ReceiveKeepsInv(c: Config, s: State, up: Upstream, dialOk: bool)
    requires Inv(c, s) && Enabled(c, s, ExitReceive(up, dialOk)) && Disciplined(c, s.requests)
    ensures Inv(c, Apply(c, s, ExitReceive(up, dialOk)))
  {
    CarriesPort(c, up.data, up.origin);
    if up.origin.addr.port in s.cache {
      ReuseKeepsInv(c, s, up, dialOk);
    } else if dialOk && ServicePort(c.services, c.serviceID, up.origin.socket).Some? {
      DialKeepsInv(c, s, up);
    }
  }

  lemma DeliverKeepsInv(c: Config, s: State, down: Downstream)
    requires Inv(c, s) && Enabled(c, s, EntryReceive(down)) && Disciplined(c, s.requests)
    ensures Inv(c, Apply(c, s, EntryReceive(down)))
  {
    var s' := Apply(c, s, EntryReceive(down));
    if s' != s {
      var conn := s.conns[down.conn];
      var port := ConnIDToPort(down.data);
      var r :| r in s.requests && r.addr == s.clientAddr[port];
      forall u | u in conn.users
        ensures u == r && u.socket == down.data[3]
      {
        CarriesPort(c, down.data, u);
      }
      assert conn.users == {r};
      var d := s'.deliveries[|s.deliveries|];
      assert r == Request(d.addr, d.socket);
    }
  }

  lemma ReplyKeepsInv(c: Config, s: State, conn: nat, payload: seq<Byte>)
    requires Inv(c, s) && Enabled(c, s, ServiceReply(conn, payload))
    ensures Inv(c, Apply(c, s, ServiceReply(conn, payload)))
  {
    var prefix := s.conns[conn].prefix;
    assert (prefix + payload)[..PREFIX_LEN] == prefix && (prefix + payload)[PREFIX_LEN..] == payload;
  }

  lemma StepKeepsInv(c: Config, s: State, step: Step)
    requires Inv(c, s) && Enabled(c, s, step) && Disciplined(c, s.requests)
    ensures Inv(c, Apply(c, s, step)) && s.requests <= Apply(c, s, step).requests
  {
    match step
    case ClientSend(request, payload) => SendKeepsInv(c, s, request, payload);
    case ExitReceive(up, dialOk) => ReceiveKeepsInv(c, s, up, dialOk);
    case ServiceReply(conn, payload) => ReplyKeepsInv(c, s, conn, payload);
    case EntryReceive(down) => DeliverKeepsInv(c, s, down);
    case ForgetClient(_) =>
    case ForgetConn(_) =>
  }

  lemma {:induction false} RequestsGrow(c: Config, s: State, steps: seq<Step>)
    requires Legal(c, s, steps)
    ensures s.requests <= Play(c, s, steps).requests
    decreases |steps|
  {
    if steps != [] {
      RequestsGrow(c, Apply(c, s, steps[0]), steps[1..]);
    }
  }

  lemma {:induction false} PlayKeepsInv(c: Config, s: State, steps: seq<Step>)
    requires Inv(c, s) && Legal(c, s, steps) && Disciplined(c, Play(c, s, steps).requests)
    ensures Inv(c, Play(c, s, steps))
    decreases |steps|
  {
    if steps != [] {
      RequestsGrow(c, s, steps);
      StepKeepsInv(c, s, steps[0]);
      PlayKeepsInv(c, Apply(c, s, steps[0]), steps[1..]);
    }
  }

  // If no other request shares a served one's source port, every reply goes back where the requests on its connection
  // came from, and that connection leads to the service port of the socket.
  lemma RepliesReturnToSender(c: Config, steps: seq<Step>, i: nat)
    requires Legal(c, INIT, steps) && Disciplined(c, Play(c, INIT, steps).requests)
    requires i < |Play(c, INIT, steps).deliveries|
    ensures var s := Play(c, INIT, steps);
            var d := s.deliveries[i];
            && Request(d.addr, d.socket) in s.requests
            && d.conn < |s.conns|
            && s.conns[d.conn].users == {Request(d.addr, d.socket)}
            && LeadsTo(c, d.socket, s.conns[d.conn].target)
            && (d.conn, d.payload) in s.replied
  {
    PlayKeepsInv(c, INIT, steps);
    var s := Play(c, INIT, steps);
    var d := s.deliveries[i];
    assert DeliveryOk(s, d);
    assert ConnOk(c, s.requests, s.conns[d.conn]);
    assert Request(d.addr, d.socket) in s.conns[d.conn].users;
  }

  // Under the same discipline, whatever reaches a service was sent by some client, unchanged, to that very service port.
  lemma RequestsReachTheirService(c: Config, steps: seq<Step>, i: nat)
    requires Legal(c, INIT, steps) && Disciplined(c, Play(c, INIT, steps).requests)
    requires i < |Play(c, INIT, steps).forwards|
    ensures var s := Play(c, INIT, steps);
            var f := s.forwards[i];
            && (f.origin, f.payload) in s.sent
            && f.conn < |s.conns|
            && LeadsTo(c, f.origin.socket, s.conns[f.conn].target)
  {
    PlayKeepsInv(c, INIT, steps);
    var s := Play(c, INIT, steps);
    assert ForwardOk(s, s.forwards[i]);
    assert ConnOk(c, s.requests, s.conns[s.forwards[i].conn]);
  }

  /* ----- The discipline is needed: any two requests sharing a port can have their replies mixed up ----- */

  function MixedRun(c: Config, a: Request, b: Request): seq<Step> {
    var dataA := Prefix(a.addr.port, c.serviceID, a.socket) + [];
    var dataB := Prefix(b.addr.port, c.serviceID, b.socket) + [];
    [ClientSend(a, []), ExitReceive(Upstream(dataA, a), true), ClientSend(b, []), ExitReceive(Upstream(dataB, b), true),
     ServiceReply(0, []), EntryReceive(Downstream(dataA[..PREFIX_LEN] + [], 0))]
  }

  lemma LegalCons(c: Config, s: State, step: Step, rest: seq<Step>)
    requires Enabled(c, s, step) && Legal(c, Apply(c, s, step), rest)
    ensures Legal(c, s, [step] + rest) && Play(c, s, [step] + rest) == Play(c, Apply(c, s, step), rest)
  {
    assert ([step] + rest)[1..] == rest;
  }

  // After both requests have gone through, they share the first connection, and the second address is remembered.
  lemma BothUseOneConn(c: Config, a: Request, b: Request)
    requires a.addr.port == b.addr.port && a.socket < c.sockets && b.socket < c.sockets
    requires ServicePort(c.services, c.serviceID, a.socket).Some?
    ensures var steps := MixedRun(c, a, b);
            && Legal(c, INIT, steps[..4])
            && var s := Play(c, INIT, steps[..4]);
               && |s.conns| == 1 && s.conns[0].users == {a, b}
               && s.conns[0].prefix == Prefix(a.addr.port, c.serviceID, a.socket)
               && ServicePort(c.services, c.serviceID, a.socket) == Some(s.conns[0].target)
               && s.clientAddr == map[a.addr.port := b.addr] && s.requests == {a, b} && s.deliveries == []
  {
    var steps := MixedRun(c, a, b);
    PrefixParts(a.addr.port, c.serviceID, a.socket, []);
    PrefixParts(b.addr.port, c.serviceID, b.socket, []);
    var s1 := Apply(c, INIT, steps[0]);
    var s2 := Apply(c, s1, steps[1]);
    assert s2.cache == map[a.addr.port := 0] && s2.conns[0].users == {a};
    var s3 := Apply(c, s2, steps[2]);
    var s4 := Apply(c, s3, steps[3]);
    assert s4.conns[0].users == {a, b} && s4.requests == {a, b};
    LegalCons(c, s3, steps[3], []);
    LegalCons(c, s2, steps[2], [steps[3]]);
    LegalCons(c, s1, steps[1], [steps[2], steps[3]]);
    LegalCons(c, INIT, steps[0], [steps[1], steps[2], steps[3]]);
    assert steps[..4] == [steps[0]] + [steps[1], steps[2], steps[3]];
  }

  lemma {:induction false} PlayAppend(c: Config, s: State, steps: seq<Step>, more: seq<Step>)
    requires Legal(c, s, steps) && Legal(c, Play(c, s, steps), more)
    ensures Legal(c, s, steps + more) && Play(c, s, steps + more) == Play(c, Play(c, s, steps), more)
    decreases |steps|
  {
    if steps == [] {
      assert steps + more == more;
    } else {
      PlayAppend(c, Apply(c, s, steps[0]), steps[1..], more);
      assert (steps + more)[1..] == steps[1..] + more;
    }
  }

  // Whatever two requests share a port, a run of just these two sends both to the first one's service and delivers the
  // reply from the first one's socket to the second one's address.
  lemma SharedPortMixesReplies(c: Config, a: Request, b: Request)
    requires a != b && a.addr.port == b.addr.port && a.socket < c.sockets && b.socket < c.sockets
    requires ServicePort(c.services, c.serviceID, a.socket).Some?
    ensures var steps := MixedRun(c, a, b);
            && Legal(c, INIT, steps)
            && var s := Play(c, INIT, steps);
               && s.requests == {a, b} && |s.conns| == 1 && s.conns[0].users == {a, b}
               && ServicePort(c.services, c.serviceID, a.socket) == Some(s.conns[0].target)
               && s.deliveries == [Delivery(a.socket, b.addr, 0, [])]
  {
    var steps := MixedRun(c, a, b);
    BothUseOneConn(c, a, b);
    var s4 := Play(c, INIT, steps[..4]);
    PrefixParts(a.addr.port, c.serviceID, a.socket, []);
    var dataA := Prefix(a.addr.port, c.serviceID, a.socket) + [];
    assert dataA == Prefix(a.addr.port, c.serviceID, a.socket) && dataA[..PREFIX_LEN] == dataA;
    var s5 := Apply(c, s4, steps[4]);
    var s6 := Apply(c, s5, steps[5]);
    assert s6.deliveries == [Delivery(a.socket, b.addr, 0, [])];
    assert a in s6.conns[0].users && b in s6.conns[0].users;
    LegalCons(c, s5, steps[5], []);
    LegalCons(c, s4, steps[4], [steps[5]]);
    assert [steps[4]] + [steps[5]] == [steps[4], steps[5]];
    PlayAppend(c, INIT, steps[..4], [steps[4], steps[5]]);
    assert steps == steps[..4] + [steps[4], steps[5]];
  }

  /* ----- Exactly which requests may go together ----- */

  // All requests of the run are allowed ones.
  ghost predicate Asks(s: State, allowed: Request -> bool) {
    forall r :: r in s.requests ==> allowed(r)
  }

  // In all runs of allowed requests, every reply goes back where the requests on its connection came from.
  ghost predicate RepliesAreSafe(c: Config, allowed: Request -> bool) {
    forall steps :: Legal(c, INIT, steps) && Asks(Play(c, INIT, steps), allowed) ==> DeliveriesOk(Play(c, INIT, steps))
  }

  // No allowed request shares the source port of an allowed one that has a service.
  ghost predicate PortsAreApart(c: Config, allowed: Request -> bool) {
    forall a, b :: allowed(a) && allowed(b) && Clash(c, a, b) ==> a == b
  }

  // Both can be sent, they share a source port, and the first one has a service.
  predicate Clash(c: Config, a: Request, b: Request) {
    a.socket < c.sockets && b.socket < c.sockets && a.addr.port == b.addr.port && HasService(c, a)
  }

  lemma {:induction false} SocketsExist(c: Config, s: State, steps: seq<Step>)
    requires Legal(c, s, steps) && forall r :: r in s.requests ==> r.socket < c.sockets
    ensures forall r :: r in Play(c, s, steps).requests ==> r.socket < c.sockets
    decreases |steps|
  {
    if steps != [] {
      SocketsExist(c, Apply(c, s, steps[0]), steps[1..]);
    }
  }

  lemma RepliesAreSafeIff(c: Config, allowed: Request -> bool)
    ensures RepliesAreSafe(c, allowed) <==> PortsAreApart(c, allowed)
  {
    if PortsAreApart(c, allowed) {
      forall steps | Legal(c, INIT, steps) && Asks(Play(c, INIT, steps), allowed)
        ensures DeliveriesOk(Play(c, INIT, steps))
      {
        SocketsExist(c, INIT, steps);
        PlayKeepsInv(c, INIT, steps);
      }
    } else {
      var a, b :| allowed(a) && allowed(b) && Clash(c, a, b) && a != b;
      SharedPortMixesReplies(c, a, b);
      var s := Play(c, INIT, MixedRun(c, a, b));
      assert !DeliveryOk(s, s.deliveries[0]);
      assert Asks(s, allowed);
    }
  }
}
