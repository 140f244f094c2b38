/**
 * The Socket.IO client's objects: the registry of open transport sessions, a
 * transport session (one WebSocket per host and port, multiplexing endpoint
 * paths), and the endpoint client an application holds. Calls out of the
 * library into application code (delegate callbacks and event handlers) are
 * recorded, in order, in a shared log; frames handed to a session's WebSocket
 * are recorded in its outbox, and HTTP requests it starts in its requests.
 */
module Network {
  import opened Wrappers
  import opened Codec
  import opened Handshake
  import opened Address
  import opened Transport

  /** The application's SIODelegate, by identity. */
  type DelegateId = nat

  /** An application event handler, by identity; `None` stands for an empty one. */
  type HandlerId = nat

  datatype Call = OnConnect | OnMessage(text: string) | OnClose | OnError(text: string)

  /** One call out of the library into application code. */
  datatype Entry =
    | Delegated(delegate: DelegateId, client: Client, call: Call)
    | Handled(handler: HandlerId, client: Client, data: string)

  /** The error a client reports to its delegate when asked to send before its endpoint connected. */
  const NotConnected: string := "Client not yet connected"

  /** The outcome of the handshake request, as the HTTP client reports it. */
  datatype HttpResponse = HttpResponse(succeeded: bool, errorBuffer: string, body: string)

  /** The event registry after a lookup by `name`: a missing name is added with an empty handler. */
  function Touched(handlers: map<string, Option<HandlerId>>, name: string): (r: map<string, Option<HandlerId>>)
    ensures r.Keys == handlers.Keys + {name}
    ensures forall n :: n in handlers ==> r[n] == handlers[n]
    ensures name !in handlers ==> r[name] == None
  {
    if name in handlers then handlers else handlers[name := None]
  }

  /** The handler calls firing `name` makes: the registered handler, if there is a non-empty one. */
  function Fired(handlers: map<string, Option<HandlerId>>, name: string, client: Client, data: string): (es: seq<Entry>)
    ensures |es| <= 1
    ensures |es| == 1 <==> name in handlers && handlers[name].Some?
    ensures |es| == 1 ==> es[0] == Handled(handlers[name].value, client, data)
  {
    if name in handlers && handlers[name].Some? then [Handled(handlers[name].value, client, data)] else []
  }

  /** A handler registered with `on` is the one firing its name calls. */
  lemma FireAfterOn(handlers: map<string, Option<HandlerId>>, name: string, h: HandlerId, client: Client, data: string)
    ensures Fired(handlers[name := Some(h)], name, client, data) == [Handled(h, client, data)]
  {
  }

  /**
   * Firing a name nothing is registered for calls nothing, and the empty entry
   * the lookup leaves behind keeps it that way: firing it again also calls nothing.
   */
  lemma FireUnregistered(handlers: map<string, Option<HandlerId>>, name: string, client: Client, data: string, data': string)
    requires name !in handlers
    ensures Fired(handlers, name, client, data) == []
    ensures Fired(Touched(handlers, name), name, client, data') == []
    ensures Touched(Touched(handlers, name), name) == Touched(handlers, name)
  {
  }

  /** The delegate calls made when the clients listed in `order` are told `call`, one each. */
  function Notify(clients: map<string, Client>, order: seq<string>, call: Call): (es: seq<Entry>)
    requires forall i :: 0 <= i < |order| ==> order[i] in clients
    ensures |es| == |order|
    ensures forall i :: 0 <= i < |order| ==>
      es[i] == Delegated(clients[order[i]].delegate, clients[order[i]], call)
  {
    if |order| == 0 then []
    else Notify(clients, order[..|order| - 1], call) + [Delegated(clients[order[|order| - 1]].delegate, clients[order[|order| - 1]], call)]
  }

  lemma NotifyStep(clients: map<string, Client>, order: seq<string>, p: string, call: Call)
    requires forall i :: 0 <= i < |order| ==> order[i] in clients
    requires p in clients
    ensures Notify(clients, order + [p], call) == Notify(clients, order, call) + [Delegated(clients[p].delegate, clients[p], call)]
  {
    assert (order + [p])[..|order|] == order;
  }

  /** Every call the library has made into application code, in order. */
  class Log {
    var entries: seq<Entry>

    constructor()
      ensures entries == []
    {
      entries := [];
    }

    method Record(e: Entry)
      modifies this`entries
      ensures entries == old(entries) + [e]
    {
      entries := entries + [e];
    }
  }

  /** The application's handle on one endpoint path of a transport session. */
  class Client {
    const host: string
    const port: int
    const path: string
    const socket: Session
    const delegate: DelegateId
    var connected: bool
    /** The client gave up its own reference (after it disconnected or was told of a disconnect). */
    var released: bool
    var handlers: map<string, Option<HandlerId>>

    constructor(host: string, port: int, path: string, socket: Session, delegate: DelegateId)
      ensures this.host == host && this.port == port && this.path == path
      ensures this.socket == socket && this.delegate == delegate
      ensures !connected && !released && handlers == map[]
    {
      this.host := host;
      this.port := port;
      this.path := path;
      this.socket := socket;
      this.delegate := delegate;
      connected := false;
      released := false;
      handlers := map[];
    }

    /** The socket opened: a non-root endpoint asks to join its path. */
    method OnOpen()
      modifies socket`outbox
      ensures socket.outbox == old(socket.outbox) + (if path != "/" then [ConnectFrame(path)] else [])
    {
      if path != "/" {
        socket.ConnectToEndpoint(path);
      }
    }

    /** The server confirmed the endpoint. */
    method OnConnect()
      modifies this`connected, socket.registry.log`entries
      ensures connected
      ensures socket.registry.log.entries == old(socket.registry.log.entries) + [Delegated(delegate, this, Call.OnConnect)]
    {
      connected := true;
      socket.registry.log.Record(Delegated(delegate, this, Call.OnConnect));
    }

    /** A message on this endpoint, or the not-connected error to the delegate. */
    method Send(s: string)
      modifies socket`outbox, socket.registry.log`entries
      ensures connected ==>
        && socket.outbox == old(socket.outbox) + [MessageFrame(path, s)]
        && socket.registry.log.entries == old(socket.registry.log.entries)
      ensures !connected ==>
        && socket.outbox == old(socket.outbox)
        && socket.registry.log.entries == old(socket.registry.log.entries) + [Delegated(delegate, this, Call.OnError(NotConnected))]
    {
      if connected {
        socket.Send(path, s);
      } else {
        socket.registry.log.Record(Delegated(delegate, this, Call.OnError(NotConnected)));
      }
    }

    /** An event on this endpoint, or the not-connected error to the delegate. */
    method Emit(name: string, args: string)
      modifies socket`outbox, socket.registry.log`entries
      ensures connected ==>
        && socket.outbox == old(socket.outbox) + [EventFrame(path, name, args)]
        && socket.registry.log.entries == old(socket.registry.log.entries)
      ensures !connected ==>
        && socket.outbox == old(socket.outbox)
        && socket.registry.log.entries == old(socket.registry.log.entries) + [Delegated(delegate, this, Call.OnError(NotConnected))]
    {
      if connected {
        socket.Emit(path, name, args);
      } else {
        socket.registry.log.Record(Delegated(delegate, this, Call.OnError(NotConnected)));
      }
    }

    /** The application leaves this endpoint; the session may be torn down with it. */
    method Disconnect()
      requires socket.Valid() && socket.registry.Valid()
      modifies this`connected, this`released, socket.registry.log`entries
      modifies socket`clients, socket`outbox, socket`ws, socket`connected, socket`heartbeatScheduled
      modifies socket.registry`sockets
      ensures !connected && released
      ensures socket.State() == LeaveEndpoint(old(socket.State()), path)
      ensures socket.clients == old(socket.clients) - {path}
      ensures socket.registry.sockets ==
        if LeaveTearsDown(old(socket.State()), path) then old(socket.registry.sockets) - {socket.uri}
        else old(socket.registry.sockets)
      ensures socket.registry.log.entries == old(socket.registry.log.entries) + [Delegated(delegate, this, Call.OnClose)]
      ensures socket.Valid() && socket.registry.Valid()
    {
      connected := false;
      socket.DisconnectFromEndpoint(path);
      socket.registry.log.Record(Delegated(delegate, this, Call.OnClose));
      released := true;
    }

    /** The server or the socket ended this endpoint. */
    method ReceivedDisconnect()
      modifies this`connected, this`released, socket.registry.log`entries
      ensures !connected && released
      ensures socket.registry.log.entries == old(socket.registry.log.entries) + [Delegated(delegate, this, Call.OnClose)]
    {
      connected := false;
      socket.registry.log.Record(Delegated(delegate, this, Call.OnClose));
      released := true;
    }

    /** Register `handler` for event `name`, replacing any earlier one. */
    method On(name: string, handler: Option<HandlerId>)
      modifies this`handlers
      ensures handlers == old(handlers)[name := handler]
    {
      handlers := handlers[name := handler];
    }

    /** Call the handler registered for `name`, if any; the lookup adds a missing name. */
    method FireEvent(name: string, data: string)
      modifies this`handlers, socket.registry.log`entries
      ensures handlers == Touched(old(handlers), name)
      ensures socket.registry.log.entries == old(socket.registry.log.entries) + Fired(old(handlers), name, this, data)
    {
      if name !in handlers {
        handlers := handlers[name := None];
      }
      var e := handlers[name];
      if e.Some? {
        socket.registry.log.Record(Handled(e.value, this, data));
      }
    }
  }

  /** One WebSocket connection to a host and port, shared by the endpoint clients of that address. */
  class Session {
    const host: string
    const port: int
    /** The registry key, `host:port`. */
    const uri: string
    const registry: Registry
    var sid: string
    var heartbeat: int
    var timeout: int
    var connected: bool
    var ws: Ws
    var socketUrl: string
    var heartbeatScheduled: bool
    var clients: map<string, Client>
    /** Frames handed to the WebSocket, in order. */
    var outbox: seq<string>
    /** URLs of the HTTP requests started, in order. */
    var requests: seq<string>
    /** The session gave up its own reference (after the socket closed). */
    var released: bool

    /** Every client is filed under its own path and belongs to this session. */
    ghost predicate Valid()
      reads this`clients
    {
      forall p :: p in clients ==> clients[p].socket == this && clients[p].path == p
    }

    /** The session as the wire sees it. */
    function State(): Wire
      reads this`clients, this`outbox, this`ws, this`connected, this`heartbeatScheduled
    {
      Wire(clients.Keys, outbox, ws, connected, heartbeatScheduled)
    }

    constructor(host: string, port: int, registry: Registry)
      ensures this.host == host && this.port == port && this.registry == registry
      ensures uri == HostPort(host, port)
      ensures sid == "" && heartbeat == 0 && timeout == 0 && socketUrl == ""
      ensures clients == map[] && outbox == [] && requests == [] && !released
      ensures State() == Wire({}, [], NoSocket, false, false)
      ensures Valid()
    {
      this.host := host;
      this.port := port;
      uri := HostPort(host, port);
      this.registry := registry;
      sid := "";
      heartbeat := 0;
      timeout := 0;
      connected := false;
      ws := NoSocket;
      socketUrl := "";
      heartbeatScheduled := false;
      clients := map[];
      outbox := [];
      requests := [];
      released := false;
    }

    /** Start the handshake request. */
    method Connect()
      modifies this`requests
      ensures requests == old(requests) + [HandshakeUrl(uri)]
    {
      requests := requests + [HandshakeUrl(uri)];
    }

    /**
     * The handshake answer. On failure every client's delegate gets the error
     * buffer; on success the session id and timings are read and the
     * WebSocket is opened. `socketReady` is whether the WebSocket accepted its URL.
     */
    method HandshakeResponse(response: HttpResponse, socketReady: bool) returns (ghost order: seq<string>)
      requires Valid()
      modifies registry.log`entries, this`sid, this`heartbeat, this`timeout, this`socketUrl, this`ws
      ensures !response.succeeded ==>
        && Enumerates(order, clients.Keys)
        && registry.log.entries == old(registry.log.entries) + Notify(clients, order, Call.OnError(response.errorBuffer))
        && sid == old(sid) && heartbeat == old(heartbeat) && timeout == old(timeout)
        && socketUrl == old(socketUrl) && ws == old(ws)
      ensures response.succeeded ==>
        && registry.log.entries == old(registry.log.entries)
        && (var h := ParseHandshake(response.body); sid == h.sid && heartbeat == h.heartbeat && timeout == h.timeout)
        && socketUrl == SocketUrl(uri, sid)
        && ws == (if socketReady then Connecting else NoSocket)
    {
      order := [];
      if !response.succeeded {
        var remaining := clients.Keys;
        EnumeratesNone(clients.Keys);
        while remaining != {}
          invariant remaining <= clients.Keys
          invariant Enumerates(order, clients.Keys - remaining)
          invariant registry.log.entries == old(registry.log.entries) + Notify(clients, order, Call.OnError(response.errorBuffer))
          modifies registry.log`entries
          decreases remaining
        {
          var p :| p in remaining;
          EnumeratesStep(order, clients.Keys, remaining, p);
          NotifyStep(clients, order, p, Call.OnError(response.errorBuffer));
          var c := clients[p];
          registry.log.Record(Delegated(c.delegate, c, Call.OnError(response.errorBuffer)));
          remaining := remaining - {p};
          order := order + [p];
        }
        EnumeratesAll(order, clients.Keys, remaining);
        return;
      }
      var h := ParseHandshake(response.body);
      sid := h.sid;
      heartbeat := h.heartbeat;
      timeout := h.timeout;
      OpenSocket(socketReady);
    }

    /** Create the WebSocket for the session id; it is dropped when it does not accept the URL. */
    method OpenSocket(socketReady: bool)
      modifies this`socketUrl, this`ws
      ensures socketUrl == SocketUrl(uri, sid)
      ensures ws == if socketReady then Connecting else NoSocket
    {
      socketUrl := SocketUrl(uri, sid);
      ws := if socketReady then Connecting else NoSocket;
    }

    /** Tear the session down: leave every endpoint, stop the heartbeat, leave the registry. */
    method Disconnect()
      requires Valid() && registry.Valid()
      modifies this`outbox, this`ws, this`connected, this`heartbeatScheduled, registry`sockets
      ensures State() == Disconnected(old(State()))
      ensures registry.sockets == old(registry.sockets) - {uri}
      ensures registry.Valid()
    {
      if ws == Open {
        outbox := outbox + ["0::"];
        ws := Closed;
      }
      heartbeatScheduled := false;
      connected := false;
      registry.RemoveSocket(uri);
    }

    /** The client filed under `endpoint`, if any. */
    function GetClient(endpoint: string): (r: Option<Client>)
      requires Valid()
      reads this`clients
      ensures r.Some? <==> endpoint in clients
      ensures r.Some? ==> r.value == clients[endpoint] && r.value.path == endpoint && r.value.socket == this
    {
      if endpoint in clients then Some(clients[endpoint]) else None
    }

    /** File `client` under `endpoint`, replacing any client there. */
    method AddClient(endpoint: string, client: Client)
      requires Valid() && client.socket == this && client.path == endpoint
      modifies this`clients
      ensures clients == old(clients)[endpoint := client]
      ensures Valid()
    {
      clients := clients[endpoint := client];
    }

    method ConnectToEndpoint(endpoint: string)
      modifies this`outbox
      ensures outbox == old(outbox) + [ConnectFrame(endpoint)]
    {
      outbox := outbox + [ConnectFrame(endpoint)];
    }

    /** Leave one endpoint: a scoped disconnect frame, or the whole session when nothing is left or it is the root. */
    method DisconnectFromEndpoint(endpoint: string)
      requires Valid() && registry.Valid()
      modifies this`clients, this`outbox, this`ws, this`connected, this`heartbeatScheduled, registry`sockets
      ensures State() == LeaveEndpoint(old(State()), endpoint)
      ensures clients == old(clients) - {endpoint}
      ensures registry.sockets ==
        if LeaveTearsDown(old(State()), endpoint) then old(registry.sockets) - {uri} else old(registry.sockets)
      ensures Valid() && registry.Valid()
    {
      clients := clients - {endpoint};
      if |clients| == 0 || endpoint == "/" {
        if connected {
          Disconnect();
        }
      } else {
        outbox := outbox + [DisconnectFrame(endpoint)];
      }
    }

    method Heartbeat()
      modifies this`outbox
      ensures outbox == old(outbox) + [HeartbeatFrame]
    {
      outbox := outbox + [HeartbeatFrame];
    }

    method Send(endpoint: string, s: string)
      modifies this`outbox
      ensures outbox == old(outbox) + [MessageFrame(endpoint, s)]
    {
      outbox := outbox + [MessageFrame(endpoint, s)];
    }

    method Emit(endpoint: string, name: string, args: string)
      modifies this`outbox
      ensures outbox == old(outbox) + [EventFrame(endpoint, name, args)]
    {
      outbox := outbox + [EventFrame(endpoint, name, args)];
    }

    /** The socket opened: the session joins the registry, every client announces its path, the heartbeat starts. */
    method OnOpen() returns (ghost order: seq<string>)
      requires Valid() && registry.Valid()
      modifies this`connected, this`ws, this`outbox, this`heartbeatScheduled, registry`sockets
      ensures Enumerates(order, clients.Keys)
      ensures State() == Opened(old(State()), order)
      ensures registry.sockets == old(registry.sockets)[uri := this]
      ensures registry.Valid()
    {
      ws := Open;
      connected := true;
      registry.AddSocket(uri, this);
      order := AnnounceAll();
      heartbeatScheduled := true;
    }

    /** Each client, visited in dictionary order, sends the connect frame for its path. */
    method AnnounceAll() returns (ghost order: seq<string>)
      requires Valid()
      modifies this`outbox
      ensures Enumerates(order, clients.Keys)
      ensures outbox == old(outbox) + ConnectFrames(order)
    {
      var remaining := clients.Keys;
      order := [];
      EnumeratesNone(clients.Keys);
      while remaining != {}
        invariant remaining <= clients.Keys
        invariant Enumerates(order, clients.Keys - remaining)
        invariant outbox == old(outbox) + ConnectFrames(order)
        decreases remaining
      {
        var p :| p in remaining;
        EnumeratesStep(order, clients.Keys, remaining, p);
        ConnectFramesStep(order, p);
        clients[p].OnOpen();
        remaining := remaining - {p};
        order := order + [p];
      }
      EnumeratesAll(order, clients.Keys, remaining);
    }

    /** The client a received packet is addressed to, if its endpoint has one. */
    function Target(p: Packet): set<Client>
      reads this`clients
    {
      var e := p.endpoint;
      if e in clients then {clients[e]} else {}
    }

    /** What a received packet causes in this session. */
    function Dispatch(p: Packet): Action
      reads this`clients
    {
      Route(p, p.endpoint in clients)
    }

    /** A frame arrived on the WebSocket: it is decoded into `packet`, which is then handled. */
    method OnMessage(frame: string) returns (packet: Packet)
      requires Valid() && registry.Valid()
      modifies this`clients, this`outbox, this`ws, this`connected, this`heartbeatScheduled, registry`sockets
      modifies registry.log`entries, Target(Decode(frame))`connected, Target(Decode(frame))`released, Target(Decode(frame))`handlers
      ensures Valid() && registry.Valid()
      ensures var e := packet.endpoint;
        old(Dispatch(packet)).Leave? ==>
          && State() == LeaveEndpoint(old(State()), e)
          && clients == old(clients) - {e}
          && registry.sockets ==
            (if LeaveTearsDown(old(State()), e) then old(registry.sockets) - {uri} else old(registry.sockets))
      ensures !old(Dispatch(packet)).Leave? ==>
        State() == old(State()) && clients == old(clients) && registry.sockets == old(registry.sockets)
      ensures old(Dispatch(packet)) in {Leave(false), Ignore} ==> registry.log.entries == old(registry.log.entries)
      ensures old(Dispatch(packet)) == Leave(true) ==>
        var c := old(clients[packet.endpoint]);
        && !c.connected && c.released && c.handlers == old(c.handlers)
        && registry.log.entries == old(registry.log.entries) + [Delegated(c.delegate, c, Call.OnClose)]
      ensures old(Dispatch(packet)) == Connected ==>
        var c := old(clients[packet.endpoint]);
        && c.connected && c.released == old(c.released) && c.handlers == old(c.handlers)
        && registry.log.entries == old(registry.log.entries) + [Delegated(c.delegate, c, Call.OnConnect)]
      ensures old(Dispatch(packet)).Deliver? ==>
        var c := old(clients[packet.endpoint]);
        registry.log.entries == old(registry.log.entries) + [Delegated(c.delegate, c, Call.OnMessage(old(Dispatch(packet)).text))]
      ensures old(Dispatch(packet)).Fail? ==>
        var c := old(clients[packet.endpoint]);
        registry.log.entries == old(registry.log.entries) + [Delegated(c.delegate, c, Call.OnError(old(Dispatch(packet)).text))]
      ensures old(Dispatch(packet)).Fire? ==>
        var c := old(clients[packet.endpoint]);
        var name := old(Dispatch(packet)).name;
        && c.handlers == Touched(old(c.handlers), name)
        && c.connected == old(c.connected) && c.released == old(c.released)
        && registry.log.entries == old(registry.log.entries) + Fired(old(c.handlers), name, c, old(Dispatch(packet)).data)
      ensures old(Dispatch(packet)).Deliver? || old(Dispatch(packet)).Fail? || old(Dispatch(packet)) == Ignore ==>
        packet.endpoint in old(clients) ==> unchanged(old(clients[packet.endpoint]))
      ensures packet == Decode(frame)
    {
      packet := Decode(frame);
      Receive(packet);
    }

    /** A decoded packet is routed to the client of its endpoint. */
    method Receive(p: Packet)
      requires Valid() && registry.Valid()
      modifies this`clients, this`outbox, this`ws, this`connected, this`heartbeatScheduled, registry`sockets
      modifies registry.log`entries, Target(p)`connected, Target(p)`released, Target(p)`handlers
      ensures Valid() && registry.Valid()
      ensures var e := p.endpoint;
        old(Dispatch(p)).Leave? ==>
          && State() == LeaveEndpoint(old(State()), e)
          && clients == old(clients) - {e}
          && registry.sockets ==
            (if LeaveTearsDown(old(State()), e) then old(registry.sockets) - {uri} else old(registry.sockets))
      ensures !old(Dispatch(p)).Leave? ==>
        State() == old(State()) && clients == old(clients) && registry.sockets == old(registry.sockets)
      ensures old(Dispatch(p)) in {Leave(false), Ignore} ==> registry.log.entries == old(registry.log.entries)
      ensures old(Dispatch(p)) == Leave(true) ==>
        var c := old(clients[p.endpoint]);
        && !c.connected && c.released && c.handlers == old(c.handlers)
        && registry.log.entries == old(registry.log.entries) + [Delegated(c.delegate, c, Call.OnClose)]
      ensures old(Dispatch(p)) == Connected ==>
        var c := old(clients[p.endpoint]);
        && c.connected && c.released == old(c.released) && c.handlers == old(c.handlers)
        && registry.log.entries == old(registry.log.entries) + [Delegated(c.delegate, c, Call.OnConnect)]
      ensures old(Dispatch(p)).Deliver? ==>
        var c := old(clients[p.endpoint]);
        registry.log.entries == old(registry.log.entries) + [Delegated(c.delegate, c, Call.OnMessage(old(Dispatch(p)).text))]
      ensures old(Dispatch(p)).Fail? ==>
        var c := old(clients[p.endpoint]);
        registry.log.entries == old(registry.log.entries) + [Delegated(c.delegate, c, Call.OnError(old(Dispatch(p)).text))]
      ensures old(Dispatch(p)).Fire? ==>
        var c := old(clients[p.endpoint]);
        var name := old(Dispatch(p)).name;
        && c.handlers == Touched(old(c.handlers), name)
        && c.connected == old(c.connected) && c.released == old(c.released)
        && registry.log.entries == old(registry.log.entries) + Fired(old(c.handlers), name, c, old(Dispatch(p)).data)
      ensures old(Dispatch(p)).Deliver? || old(Dispatch(p)).Fail? || old(Dispatch(p)) == Ignore ==>
        p.endpoint in old(clients) ==> unchanged(old(clients[p.endpoint]))
    {
      var c := GetClient(p.endpoint);
      match Route(p, c.Some?)
      case Leave(notify) =>
        EndpointLeft(p, notify);
      case Connected =>
        c.value.OnConnect();
      case Deliver(text) =>
        registry.log.Record(Delegated(c.value.delegate, c.value, Call.OnMessage(text)));
      case Fire(name, data) =>
        c.value.FireEvent(name, data);
      case Fail(text) =>
        registry.log.Record(Delegated(c.value.delegate, c.value, Call.OnError(text)));
      case Ignore =>
    }

    /** A received disconnect: the endpoint's client, if it is told, closes; then the endpoint is left. */
    method EndpointLeft(p: Packet, notify: bool)
      requires Valid() && registry.Valid()
      requires notify ==> p.endpoint in clients
      modifies this`clients, this`outbox, this`ws, this`connected, this`heartbeatScheduled, registry`sockets
      modifies registry.log`entries, Target(p)`connected, Target(p)`released
      ensures Valid() && registry.Valid()
      ensures State() == LeaveEndpoint(old(State()), p.endpoint)
      ensures clients == old(clients) - {p.endpoint}
      ensures registry.sockets ==
        if LeaveTearsDown(old(State()), p.endpoint) then old(registry.sockets) - {uri} else old(registry.sockets)
      ensures !notify ==> registry.log.entries == old(registry.log.entries)
      ensures notify ==>
        var c := old(clients[p.endpoint]);
        && !c.connected && c.released
        && registry.log.entries == old(registry.log.entries) + [Delegated(c.delegate, c, Call.OnClose)]
    {
      if notify {
        var c := clients[p.endpoint];
        c.ReceivedDisconnect();
      }
      DisconnectFromEndpoint(p.endpoint);
    }

    /**
     * The socket closed: every client is told and releases itself, and the
     * session releases itself. The heartbeat, the connected flag, the registry
     * entry and the client map are left as they were.
     */
    method OnClose() returns (ghost order: seq<string>)
      requires Valid()
      modifies this`ws, this`released, clients.Values`connected, clients.Values`released, registry.log`entries
      ensures ws == Closed && released
      ensures Enumerates(order, clients.Keys)
      ensures registry.log.entries == old(registry.log.entries) + Notify(clients, order, Call.OnClose)
      ensures forall p :: p in clients ==> !clients[p].connected && clients[p].released
    {
      ws := Closed;
      order := TellAllClosed();
      released := true;
    }

    /** Each client, visited in dictionary order, learns that it was disconnected and is released. */
    method TellAllClosed() returns (ghost order: seq<string>)
      requires Valid()
      modifies clients.Values`connected, clients.Values`released, registry.log`entries
      ensures Enumerates(order, clients.Keys)
      ensures registry.log.entries == old(registry.log.entries) + Notify(clients, order, Call.OnClose)
      ensures forall p :: p in clients ==> !clients[p].connected && clients[p].released
    {
      var remaining := clients.Keys;
      order := [];
      EnumeratesNone(clients.Keys);
      while remaining != {}
        invariant remaining <= clients.Keys
        invariant Enumerates(order, clients.Keys - remaining)
        invariant registry.log.entries == old(registry.log.entries) + Notify(clients, order, Call.OnClose)
        invariant forall i :: 0 <= i < |order| ==> !clients[order[i]].connected && clients[order[i]].released
        decreases remaining
      {
        var p :| p in remaining;
        EnumeratesStep(order, clients.Keys, remaining, p);
        NotifyStep(clients, order, p, Call.OnClose);
        var c := clients[p];
        assert c.socket.registry.log == registry.log;
        c.ReceivedDisconnect();
        remaining := remaining - {p};
        order := order + [p];
      }
      EnumeratesAll(order, clients.Keys, remaining);
    }
  }

  /** The process-wide registry of open sessions, keyed by `host:port`. */
  class Registry {
    const log: Log
    var sockets: map<string, Session>

    ghost predicate Valid()
      reads this`sockets, sockets.Values`clients
    {
      forall k :: k in sockets ==> sockets[k].Valid()
    }

    constructor(log: Log)
      ensures this.log == log && sockets == map[]
      ensures Valid()
    {
      this.log := log;
      sockets := map[];
    }

    function GetSocket(key: string): (r: Option<Session>)
      reads this`sockets
      ensures r.Some? <==> key in sockets
      ensures r.Some? ==> r.value == sockets[key]
    {
      if key in sockets then Some(sockets[key]) else None
    }

    method AddSocket(key: string, s: Session)
      requires Valid() && s.Valid()
      modifies this`sockets
      ensures sockets == old(sockets)[key := s]
      ensures Valid()
    {
      sockets := sockets[key := s];
    }

    /** Drop whatever session is filed under `key`. */
    method RemoveSocket(key: string)
      requires Valid()
      modifies this`sockets
      ensures sockets == old(sockets) - {key}
      ensures Valid()
    {
      sockets := sockets - {key};
    }

    /**
     * The client for `uri`: the URI is split into host, port and path, and
     * the client for that address is found or made. `unsetPort` is the port
     * used when the URI names none.
     */
    method Connect(delegate: DelegateId, uri: string, unsetPort: int) returns (c: Client)
      requires Valid()
      modifies sockets.Values`clients, sockets.Values`outbox
      ensures Valid()
      ensures sockets == old(sockets)
      ensures c.path == ParseUri(uri).path
      ensures forall s :: s in old(sockets.Values) && s != c.socket ==> s.clients == old(s.clients) && s.outbox == old(s.outbox)
      ensures var u := ParseUri(uri); var key := HostPort(u.host, u.port.GetOr(unsetPort));
        key !in old(sockets) ==>
          && fresh(c) && fresh(c.socket)
          && c.delegate == delegate && c.host == u.host && c.port == u.port.GetOr(unsetPort) && !c.connected
          && c.socket.uri == key && c.socket.registry == this
          && c.socket.clients == map[u.path := c] && c.socket.requests == [HandshakeUrl(key)]
          && c.socket.State() == Wire({u.path}, [], NoSocket, false, false)
          && c.socket.Valid()
      ensures var u := ParseUri(uri); var key := HostPort(u.host, u.port.GetOr(unsetPort));
        key in old(sockets) ==>
          var s := old(sockets[key]);
          && c.socket == s
          && (u.path in old(s.clients) ==>
            c == old(s.clients[u.path]) && s.clients == old(s.clients) && s.outbox == old(s.outbox))
          && (u.path !in old(s.clients) ==>
            && fresh(c) && c.delegate == delegate && c.host == u.host && c.port == u.port.GetOr(unsetPort) && !c.connected
            && s.clients == old(s.clients)[u.path := c]
            && s.outbox == old(s.outbox) + [ConnectFrame(u.path)])
    {
      var u := ParseUri(uri);
      c := ConnectTo(delegate, u.host, u.port.GetOr(unsetPort), u.path);
    }

    /**
     * The client for `path` at `host:port`. A registered session for the
     * address is reused, and with it a client already on the path; otherwise
     * a new session is created and starts its handshake, and it joins the
     * registry only once its socket opens.
     */
    method ConnectTo(delegate: DelegateId, host: string, port: int, path: string) returns (c: Client)
      requires Valid()
      modifies sockets.Values`clients, sockets.Values`outbox
      ensures Valid()
      ensures sockets == old(sockets)
      ensures c.path == path
      ensures forall s :: s in old(sockets.Values) && s != c.socket ==> s.clients == old(s.clients) && s.outbox == old(s.outbox)
      ensures var key := HostPort(host, port);
        key !in old(sockets) ==>
          && fresh(c) && fresh(c.socket)
          && c.delegate == delegate && c.host == host && c.port == port && !c.connected
          && c.socket.uri == key && c.socket.registry == this
          && c.socket.clients == map[path := c] && c.socket.requests == [HandshakeUrl(key)]
          && c.socket.State() == Wire({path}, [], NoSocket, false, false)
          && c.socket.Valid()
      ensures var key := HostPort(host, port);
        key in old(sockets) ==>
          var s := old(sockets[key]);
          && c.socket == s
          && (path in old(s.clients) ==>
            c == old(s.clients[path]) && s.clients == old(s.clients) && s.outbox == old(s.outbox))
          && (path !in old(s.clients) ==>
            && fresh(c) && c.delegate == delegate && c.host == host && c.port == port && !c.connected
            && s.clients == old(s.clients)[path := c]
            && s.outbox == old(s.outbox) + [ConnectFrame(path)])
    {
      var key := HostPort(host, port);
      var found := GetSocket(key);
      if found.None? {
        var s := new Session(host, port, this);
        c := new Client(host, port, path, s, delegate);
        s.AddClient(path, c);
        s.Connect();
      } else {
        var s := found.value;
        var existing := s.GetClient(path);
        if existing.Some? {
          c := existing.value;
        } else {
          c := new Client(host, port, path, s, delegate);
          s.AddClient(path, c);
          s.ConnectToEndpoint(path);
        }
      }
    }
  }
}
