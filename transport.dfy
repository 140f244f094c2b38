/**
 * The transport session's wire-level behaviour as values: which endpoint paths
 * are joined, the frames handed to the WebSocket, the socket's state and the
 * connected and heartbeat flags; the session's endpoint teardown and its
 * dispatch of received packets.
 */
module Transport {
  import opened Text
  import opened Codec

  /** The WebSocket as the session sees it; NoSocket before the handshake or after a failed init. */
  datatype Ws = NoSocket | Connecting | Open | Closed

  /** A session's state on the wire. */
  datatype Wire = Wire(paths: set<string>, outbox: seq<string>, ws: Ws, connected: bool, heartbeat: bool)

  /**
   * A full disconnect, less the registry removal: the root disconnect frame and
   * a close only when the socket is open; the heartbeat is always cancelled
   * and the session marked not connected.
   */
  function Disconnected(w: Wire): (r: Wire)
    ensures r.paths == w.paths && !r.connected && !r.heartbeat && r.ws != Open
    ensures w.ws == Open ==> r.outbox == w.outbox + ["0::"] && r.ws == Closed
    ensures w.ws != Open ==> r.outbox == w.outbox && r.ws == w.ws
  {
    if w.ws == Open then
      w.(outbox := w.outbox + ["0::"], ws := Closed, connected := false, heartbeat := false)
    else
      w.(connected := false, heartbeat := false)
  }

  /** Leaving `endpoint` ends the session: no path is left, or it is the root. */
  predicate EndsSession(w: Wire, endpoint: string) {
    |w.paths - {endpoint}| == 0 || endpoint == "/"
  }

  /** Leaving `endpoint` runs the full disconnect, which also drops the session from the registry. */
  predicate LeaveTearsDown(w: Wire, endpoint: string) {
    EndsSession(w, endpoint) && w.connected
  }

  /**
   * Leaving one endpoint: the path is removed; then either the whole session is
   * torn down (only if it is connected) or a scoped disconnect frame is sent.
   */
  function LeaveEndpoint(w: Wire, endpoint: string): (r: Wire)
    ensures r.paths == w.paths - {endpoint}
  {
    var w' := w.(paths := w.paths - {endpoint});
    if EndsSession(w, endpoint) then
      if w.connected then Disconnected(w') else w'
    else
      w'.(outbox := w.outbox + [DisconnectFrame(endpoint)])
  }

  /** The connect frames the clients send when the socket opens, in the order they are visited. */
  function ConnectFrames(order: seq<string>): (frames: seq<string>)
    ensures |frames| <= |order|
    ensures "/" !in order ==> |frames| == |order|
    ensures forall i :: 0 <= i < |order| && order[i] != "/" ==> ConnectFrame(order[i]) in frames
  {
    if |order| == 0 then []
    else
      var init := ConnectFrames(order[..|order| - 1]);
      var p := order[|order| - 1];
      assert forall i :: 0 <= i < |order| - 1 ==> order[..|order| - 1][i] == order[i];
      init + (if p != "/" then [ConnectFrame(p)] else [])
  }

  /** One frame per occurrence of a non-root path, and no frame that is not a visited path's connect frame. */
  lemma {:induction false} ConnectFramesExact(order: seq<string>)
    ensures |ConnectFrames(order)| == |order| - multiset(order)["/"]
    ensures forall k :: 0 <= k < |ConnectFrames(order)| ==>
      exists i :: 0 <= i < |order| && order[i] != "/" && ConnectFrames(order)[k] == ConnectFrame(order[i])
  {
    if |order| > 0 {
      var init, p := order[..|order| - 1], order[|order| - 1];
      assert order == init + [p];
      ConnectFramesExact(init);
      ConnectFramesStep(init, p);
      var frames := ConnectFrames(order);
      forall k | 0 <= k < |frames|
        ensures exists i :: 0 <= i < |order| && order[i] != "/" && frames[k] == ConnectFrame(order[i])
      {
        if k < |ConnectFrames(init)| {
          var i :| 0 <= i < |init| && init[i] != "/" && ConnectFrames(init)[k] == ConnectFrame(init[i]);
          assert order[i] == init[i];
        } else {
          assert order[|order| - 1] == p;
        }
      }
    }
  }

  /** The frames keep the visiting order: those of an earlier stretch of the order come first. */
  lemma {:induction false} ConnectFramesConcat(a: seq<string>, b: seq<string>)
    ensures ConnectFrames(a + b) == ConnectFrames(a) + ConnectFrames(b)
  {
    if |b| == 0 {
      assert a + b == a;
    } else {
      var b', q := b[..|b| - 1], b[|b| - 1];
      assert b == b' + [q];
      assert a + b == (a + b') + [q];
      ConnectFramesStep(a + b', q);
      ConnectFramesStep(b', q);
      ConnectFramesConcat(a, b');
    }
  }

  lemma ConnectFramesStep(order: seq<string>, p: string)
    ensures ConnectFrames(order + [p]) == ConnectFrames(order) + (if p != "/" then [ConnectFrame(p)] else [])
  {
    assert (order + [p])[..|order|] == order;
  }

  /** The socket opened: every joined path is announced, and the heartbeat starts. */
  function Opened(w: Wire, order: seq<string>): (r: Wire)
    ensures r.paths == w.paths && r.ws == Open && r.connected && r.heartbeat
    ensures |r.outbox| >= |w.outbox| && r.outbox[..|w.outbox|] == w.outbox
    ensures forall i :: 0 <= i < |order| && order[i] != "/" ==> ConnectFrame(order[i]) in r.outbox[|w.outbox|..]
  {
    w.(outbox := w.outbox + ConnectFrames(order), ws := Open, connected := true, heartbeat := true)
  }

  /** `order` lists every key of `keys` exactly once. */
  ghost predicate Enumerates(order: seq<string>, keys: set<string>) {
    && (forall i :: 0 <= i < |order| ==> order[i] in keys)
    && (forall k :: k in keys ==> k in order)
    && (forall i, j :: 0 <= i < j < |order| ==> order[i] != order[j])
  }

  /** Before any key is visited, the empty sequence enumerates the visited ones. */
  lemma EnumeratesNone(keys: set<string>)
    ensures Enumerates([], keys - keys)
  {
    assert keys - keys == {};
  }

  /** Once no key remains, the visited ones are all of them. */
  lemma EnumeratesAll(order: seq<string>, keys: set<string>, remaining: set<string>)
    requires remaining == {} && Enumerates(order, keys - remaining)
    ensures Enumerates(order, keys)
  {
    assert keys - remaining == keys;
  }

  /** Visiting one more unvisited key extends an enumeration of the visited ones. */
  lemma EnumeratesStep(order: seq<string>, keys: set<string>, remaining: set<string>, p: string)
    requires remaining <= keys && p in remaining
    requires Enumerates(order, keys - remaining)
    ensures Enumerates(order + [p], keys - (remaining - {p}))
  {
    assert p !in order;
  }

  /** The only enumeration of a single key is that key. */
  lemma EnumeratesSingleton(order: seq<string>, k: string)
    requires Enumerates(order, {k})
    ensures order == [k]
  {
    assert k in order;
    assert order[0] == k == order[|order| - 1];
  }

  /** Nothing to enumerate: the enumeration is empty. */
  lemma EnumeratesEmpty(order: seq<string>, keys: set<string>)
    requires Enumerates(order, keys) && keys == {}
    ensures order == []
  {
    if |order| > 0 {
      EnumeratesHead(order, keys);
      assert false;
    }
  }

  lemma EnumeratesHead(order: seq<string>, keys: set<string>)
    requires Enumerates(order, keys) && |order| > 0
    ensures order[0] in keys
  {
  }

  // ---- dispatch of a received packet ----

  datatype Action =
    | Ignore
    | Leave(notify: bool)          // the client (if any) is told, then the endpoint is left
    | Connected                    // the client is marked connected
    | Deliver(text: string)        // the delegate's onMessage
    | Fire(name: string, data: string)  // the client's event handler for `name`
    | Fail(text: string)           // the delegate's onError

  /**
   * What a received packet causes, given whether its endpoint has a client.
   * A disconnect always leaves the endpoint; every other code needs a client.
   */
  function Route(p: Packet, registered: bool): (a: Action)
    ensures a.Leave? <==> p.control == 0
    ensures a.Leave? ==> a.notify == registered
    ensures !registered ==> a == Ignore || a.Leave?
    ensures p.control !in {0, 1, 3, 4, 5, 7} ==> a == Ignore
    ensures a == Connected <==> registered && p.control == 1
    ensures a.Deliver? <==> registered && (p.control == 3 || p.control == 4)
    ensures a.Fire? <==> registered && p.control == 5
    ensures a.Fail? <==> registered && p.control == 7
    ensures a.Deliver? || a.Fail? ==> a.text == p.data
    ensures a.Fire? ==> a.name == EventName(p.data) && a.data == p.data
  {
    match p.control
    case 0 => Leave(registered)
    case 1 => if registered then Connected else Ignore
    case 3 => if registered then Deliver(p.data) else Ignore
    case 4 => if registered then Deliver(p.data) else Ignore
    case 5 => if registered then Fire(EventName(p.data), p.data) else Ignore
    case 7 => if registered then Fail(p.data) else Ignore
    case _ => Ignore
  }

  // ---- properties ----

  /** Multiplexing: leaving one non-root path while another remains keeps the transport as it was. */
  lemma LeaveOneOfSeveral(w: Wire, endpoint: string, other: string)
    requires endpoint != "/" && other != endpoint && other in w.paths
    ensures !LeaveTearsDown(w, endpoint)
    ensures var r := LeaveEndpoint(w, endpoint);
      && other in r.paths
      && r.ws == w.ws && r.connected == w.connected && r.heartbeat == w.heartbeat
      && r.outbox == w.outbox + [DisconnectFrame(endpoint)]
  {
    assert other in w.paths - {endpoint};
  }

  /** Leaving the last path of a connected, open session sends "0::", closes and stops the heartbeat. */
  lemma LeaveLastEndpoint(w: Wire, endpoint: string)
    requires w.paths <= {endpoint} && w.connected && w.ws == Open
    ensures LeaveTearsDown(w, endpoint)
    ensures LeaveEndpoint(w, endpoint) == Wire({}, w.outbox + ["0::"], Closed, false, false)
  {
    assert w.paths - {endpoint} == {};
  }

  /** Leaving the root of a connected session tears it down even while other paths remain. */
  lemma LeaveRoot(w: Wire)
    requires w.connected
    ensures LeaveTearsDown(w, "/")
    ensures LeaveEndpoint(w, "/") == Disconnected(w.(paths := w.paths - {"/"}))
  {
  }

  /** A session that never opened sends nothing when its last path leaves. */
  lemma LeaveBeforeOpen(w: Wire, endpoint: string)
    requires !w.connected && w.paths <= {endpoint}
    ensures LeaveEndpoint(w, endpoint).outbox == w.outbox
  {
    assert w.paths - {endpoint} == {};
  }

  /**
   * Every case of leaving an endpoint: a full disconnect of the remaining paths
   * when the session ends and is connected, a bare removal when it ends before
   * it connected, and otherwise the scoped disconnect frame with the transport kept.
   */
  lemma LeaveEndpointCases(w: Wire, endpoint: string)
    ensures EndsSession(w, endpoint) && w.connected ==>
      LeaveEndpoint(w, endpoint) == Disconnected(w.(paths := w.paths - {endpoint}))
    ensures EndsSession(w, endpoint) && !w.connected ==>
      LeaveEndpoint(w, endpoint) == w.(paths := w.paths - {endpoint})
    ensures !EndsSession(w, endpoint) ==>
      LeaveEndpoint(w, endpoint) == w.(paths := w.paths - {endpoint}, outbox := w.outbox + [DisconnectFrame(endpoint)])
  {
  }

  /** A message frame received for a joined endpoint is delivered with its text. */
  lemma RouteMessageFrame(endpoint: string, msg: string)
    requires endpoint != "" && ':' !in endpoint
    ensures Route(Decode(MessageFrame(endpoint, msg)), true) == Deliver(msg)
  {
    DecodeMessageFrame(endpoint, msg);
  }

  /** An event frame received for a joined endpoint fires the handler of the emitted name with the whole event object. */
  lemma RouteEventFrame(endpoint: string, name: string, args: string)
    requires endpoint != "" && ':' !in endpoint
    requires ',' !in name && '"' !in name
    ensures Route(Decode(EventFrame(endpoint, name, args)), true) == Fire(name, EventPayload(name, args))
  {
    DecodeEventFrame(endpoint, name, args);
    EventNameOfPayload(name, args);
  }

  /** A frame whose control code is not a number leaves its endpoint, like a disconnect. */
  lemma RouteNonNumericFrame(frame: string, registered: bool)
    requires |frame| > 0 && !IsDigit(frame[0]) && !IsSpace(frame[0]) && frame[0] != '-' && frame[0] != '+'
    ensures Route(Decode(frame), registered) == Leave(registered)
  {
    DecodeNonNumericControl(frame);
  }

  /** A heartbeat received is ignored whether or not the root has a client. */
  lemma RouteHeartbeatFrame(registered: bool)
    ensures Route(Decode(HeartbeatFrame), registered) == Ignore
  {
    DecodeHeartbeatFrame();
  }
}
