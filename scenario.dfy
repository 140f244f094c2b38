/**
 * Whole exchanges through the client's objects, from `connect` to teardown,
 * as the frames the WebSocket is handed and the calls the application sees.
 */
module Scenario {
  import opened Codec
  import opened Handshake
  import opened Address
  import opened Transport
  import opened Network

  /**
   * One client joins `path` at `host:port`, the handshake succeeds, the socket
   * opens, the server confirms the endpoint, the client sends `msg`, one
   * heartbeat fires and the client disconnects: the session is torn down and
   * leaves the registry. When the socket then reports that it closed, the
   * client, already gone from the session, is not told a second time.
   */
  method ChatExchange(delegate: DelegateId, host: string, port: int, path: string, body: string, msg: string)
    returns (c: Client, frames: seq<string>, calls: seq<Entry>, open: map<string, Session>)
    requires path != "/" && path != "" && ':' !in path
    ensures frames == [ConnectFrame(path), MessageFrame(path, msg), HeartbeatFrame, "0::"]
    ensures calls == [Delegated(delegate, c, Call.OnConnect), Delegated(delegate, c, Call.OnClose)]
    ensures open == map[]
  {
    var registry;
    registry, c := OpenSession(delegate, host, port, path, body);
    var s := c.socket;
    ServerConfirms(s, c);
    Talk(s, c, msg);
    LeaveLast(s, c);
    frames := s.outbox;
    calls := registry.log.entries;
    open := registry.sockets;
  }

  /** A new client on `path`, its session through a successful handshake and an opened socket. */
  method OpenSession(delegate: DelegateId, host: string, port: int, path: string, body: string)
    returns (registry: Registry, c: Client)
    requires path != "/"
    ensures fresh(registry) && fresh(registry.log) && fresh(c) && fresh(c.socket)
    ensures c.path == path && c.delegate == delegate && !c.connected
    ensures c.socket.registry == registry && registry.log.entries == []
    ensures c.socket.clients == map[path := c]
    ensures c.socket.State() == Wire({path}, [ConnectFrame(path)], Open, true, true)
    ensures registry.sockets == map[c.socket.uri := c.socket]
    ensures c.socket.Valid() && registry.Valid()
  {
    registry, c := NewSession(delegate, host, port, path);
    var s := c.socket;
    ghost var failed := s.HandshakeResponse(HttpResponse(true, "", body), true);
    assert s.State() == Wire({path}, [], Connecting, false, false);
    ghost var order := s.OnOpen();
    EnumeratesSingleton(order, path);
  }

  /** A first `connect` on a fresh registry: a new session holding only the new client, not yet in the registry. */
  method NewSession(delegate: DelegateId, host: string, port: int, path: string)
    returns (registry: Registry, c: Client)
    ensures fresh(registry) && fresh(registry.log) && fresh(c) && fresh(c.socket)
    ensures c.path == path && c.delegate == delegate && !c.connected
    ensures c.socket.registry == registry && registry.log.entries == []
    ensures c.socket.clients == map[path := c]
    ensures c.socket.State() == Wire({path}, [], NoSocket, false, false)
    ensures registry.sockets == map[]
    ensures c.socket.Valid() && registry.Valid()
  {
    var log := new Log();
    registry := new Registry(log);
    c := registry.ConnectTo(delegate, host, port, path);
  }

  /**
   * The server confirms a joined path: its connect frame decodes to control 1
   * on that path (`DecodeConnectFrame`), and the packet marks the client
   * connected and tells its delegate.
   */
  method ServerConfirms(s: Session, c: Client)
    requires s.Valid() && s.registry.Valid()
    requires c.path in s.clients && s.clients[c.path] == c
    modifies s`clients, s`outbox, s`ws, s`connected, s`heartbeatScheduled, s.registry`sockets
    modifies s.registry.log`entries, c`connected, c`released, c`handlers
    ensures c.connected && c.released == old(c.released) && c.handlers == old(c.handlers)
    ensures s.registry.log.entries == old(s.registry.log.entries) + [Delegated(c.delegate, c, Call.OnConnect)]
    ensures s.State() == old(s.State()) && s.clients == old(s.clients)
    ensures s.registry.sockets == old(s.registry.sockets)
    ensures s.Valid() && s.registry.Valid()
  {
    var packet := Packet(1, c.path, Segment(c.path));
    assert s.Target(packet) == {c} && s.Dispatch(packet) == Connected;
    s.Receive(packet);
  }

  /** A connected client sends `msg`, then the session's heartbeat fires once. */
  method Talk(s: Session, c: Client, msg: string)
    requires c.socket == s && c.connected
    modifies s`outbox, s.registry.log`entries
    ensures s.outbox == old(s.outbox) + [MessageFrame(c.path, msg), HeartbeatFrame]
    ensures s.registry.log.entries == old(s.registry.log.entries)
  {
    c.Send(msg);
    s.Heartbeat();
  }

  /**
   * The only client of an open session disconnects, which tears the session
   * down; then the socket reports that it closed.
   */
  method LeaveLast(s: Session, c: Client)
    requires s.Valid() && s.registry.Valid() && c.socket == s
    requires s.clients == map[c.path := c] && s.connected && s.ws == Open
    modifies c`connected, c`released, s.registry.log`entries, s.registry`sockets
    modifies s`clients, s`outbox, s`ws, s`connected, s`heartbeatScheduled, s`released
    ensures s.outbox == old(s.outbox) + ["0::"]
    ensures s.registry.log.entries == old(s.registry.log.entries) + [Delegated(c.delegate, c, Call.OnClose)]
    ensures s.registry.sockets == old(s.registry.sockets) - {s.uri}
    ensures s.clients == map[] && s.ws == Closed && !s.connected && !s.heartbeatScheduled && s.released
  {
    LeaveLastEndpoint(s.State(), c.path);
    c.Disconnect();
    SocketCloses(s);
  }

  /** The socket of a session with no clients left closes: no delegate is told anything. */
  method SocketCloses(s: Session)
    requires s.Valid() && s.clients == map[]
    modifies s`ws, s`released, s.clients.Values`connected, s.clients.Values`released, s.registry.log`entries
    ensures s.ws == Closed && s.released
    ensures s.registry.log.entries == old(s.registry.log.entries)
  {
    ghost var order := s.OnClose();
    EnumeratesEmpty(order, s.clients.Keys);
  }

  /**
   * Two connects to the same address before the first socket opens each make
   * their own session and start their own handshake, because a session enters
   * the registry only when its socket opens.
   */
  method ConnectTwiceBeforeOpen(host: string, port: int, path: string, path': string) returns (a: Client, b: Client)
    ensures a.socket != b.socket
    ensures a.socket.uri == b.socket.uri == HostPort(host, port)
    ensures a.socket.requests == b.socket.requests == [HandshakeUrl(HostPort(host, port))]
  {
    var log := new Log();
    var registry := new Registry(log);
    a := registry.ConnectTo(1, host, port, path);
    b := registry.ConnectTo(2, host, port, path');
  }
}
