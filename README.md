# Socket.IO revision 1 client, modelled in Dafny

This project models the core of a Socket.IO protocol revision 1 client written in C++
(`extensions/network/SocketIO.cpp`). The client lets an application open several endpoint
paths that share one WebSocket per `host:port`.

- **Packet codec.** Outbound frames are `control:msgid:endpoint:data` strings. The root path
  `/` is written as an empty segment. Inbound frames are split back into fields. The control
  code is C `atoi` of the whole frame, so a frame without a leading number reads as 0, which
  means disconnect.
- **Parsers.** The handshake body `sid:heartbeat:timeout[:transports]` and the connection
  URI `[scheme://]host[:port][/path]` are taken apart with `find`/`erase` string code.
- **Transport session (`SIOClientImpl`).** This is a class. Its fields are:
  - the path-to-client map;
  - the connected flag;
  - the WebSocket state;
  - the heartbeat flag;
  - the frames handed to the socket (its outbox);
  - the HTTP requests started.

  It handles:
  - the handshake response, including the failure branch that reports to every client;
  - the socket opening, with a connect frame per client on a path other than the root;
  - received frames;
  - the socket closing;
  - leaving one endpoint or the whole session.
- **Endpoint client (`SIOClient`).** This is a class with a connected flag, a send/emit guard
  and an event-name registry.
- **Registry (`SocketIO`).** This is a class holding the `host:port` → session map. `connect`
  finds or reuses a session, and a client within it.

The library's calls into application code (delegate callbacks and event handlers) are
appended, in order, to one shared `Log`.

Modules:
- `Text`: `find` as an `int`, `erase`, `atoi`, stream output of an `int`, `remove_copy`.
- `Codec`: the frames, `Decode` and `EventName`.
- `Handshake`: the handshake body parse and the URLs built from a session.
- `Address`: the URI parse and the `host:port` key.
- `Transport`: a session's state on the wire as a value:
  - `LeaveEndpoint` and `Disconnected`, the teardown rules;
  - `Route`, the dispatch table.
- `Network`: the classes `Log`, `Client`, `Session` and `Registry`.
  - The `Session` methods that change the wire state, and `Client.Disconnect`, are proved
    against `Transport.LeaveEndpoint`, `Transport.Disconnected` and `Transport.Opened`.
  - `Client.FireEvent` is proved against `Touched` and `Fired`.
  - `Session.HandshakeResponse` and `Session.OnClose` are proved against `Notify`.
  - The other methods state their new state directly.
- `Scenario`: whole exchanges through the classes.

Quirks of the code the model keeps:
- The WebSocket address is `host:port/socket.io/1/websocket/<sid>`, with no `ws://` scheme
  (`SocketIO.cpp:218-219`).
- The socket closing does not remove the session from the registry. It also does not cancel
  the heartbeat, clear the connected flag or empty the client map (`SocketIO.cpp:480-498`).
- The handshake heartbeat is misread as the timeout, and the session stores the misread value
  (`SocketIO.cpp:193-205`). The corrected parse is modelled and proved beside it. See Findings.

## Model

| member | source | states |
|---|---|---|
| Text.Find | extensions/network/SocketIO.cpp:397 | `find` stored into an `int`: either the first index of the character, with no earlier occurrence, or -1 exactly when the character is absent |
| Text.FindText | extensions/network/SocketIO.cpp:637 | `find("//")`: either the first index where the pattern occurs, with no occurrence before it, or -1 when it never occurs |
| Text.Without | extensions/network/SocketIO.cpp:457-458 | `remove_copy` leaves no instance of the removed character and keeps every other character as often as it occurs (multiset of the input with that character dropped); nothing changes when the character is absent |
| Text.WithoutConcat | extensions/network/SocketIO.cpp:457-458 | the copy goes character by character: removing from `a + b` is removing from `a`, then from `b`, so the kept characters stay in input order |
| Text.SkipSpace | extensions/network/SocketIO.cpp:390 | what `atoi` skips: every skipped character is white space, and what is left is a suffix that does not start with white space |
| Text.Atoi | extensions/network/SocketIO.cpp:390 | the result is negative only when a `-` follows the white space, and is never positive after one |
| Text.LeadingDigits | extensions/network/SocketIO.cpp:390 | the digit run `atoi` reads: an all-digit prefix followed by a non-digit or the end |
| Text.AtoiOfIntToString | extensions/network/SocketIO.cpp:660-661 | `atoi` reads back exactly the integer that stream output wrote, whatever non-digit follows |
| Text.AtoiOfDigits | extensions/network/SocketIO.cpp:644 | a digit string followed by a non-digit reads as the number it denotes |
| Text.AtoiWithoutDigits | extensions/network/SocketIO.cpp:390 | with no digit where the number starts, after white space and an optional sign, `atoi` gives 0 |
| Text.AtoiStopsAtColon | extensions/network/SocketIO.cpp:390 | a `:` ends the number: `atoi(field + ":" + rest) == atoi(field)` |
| Text.AtoiThen | extensions/network/SocketIO.cpp:390 | text that starts with no white space, sign or digit does not change what `atoi` reads before it |
| Text.DigitsValueOfNatToString | extensions/network/SocketIO.cpp:660-661 | the digits written for a natural number denote that number |
| Text.FindAfterPrefix | extensions/network/SocketIO.cpp:397-399 | the first colon after a colon-free prefix is at the prefix's length, and `erase` up to it leaves the text after it |
| Text.After | extensions/network/SocketIO.cpp:190 | `erase(0, pos + 1)` and `substr(pos + 1)`: the text after index `pos`, of length `|s| - pos - 1`; `pos = -1` keeps the whole text |
| Text.IntToString | extensions/network/SocketIO.cpp:99-100 | stream output of an `int`: a leading `-` exactly when the number is negative, and only digits after it |
| Codec.Segment | extensions/network/SocketIO.cpp:292 | `/` is written as the empty segment; no path is written as `/`; every other path is written as it is |
| Codec.EndpointOf | extensions/network/SocketIO.cpp:419 | a decoded endpoint is never empty: the empty segment reads as `/`, every other segment as it is |
| Codec.DisconnectFrame | extensions/network/SocketIO.cpp:310-316 | `0::` then the path, the root written as nothing; read back by `Codec.DecodeDisconnectFrame` |
| Codec.ConnectFrame | extensions/network/SocketIO.cpp:290-298 | `1::` then the path, the root written as nothing; read back by `Codec.DecodeConnectFrame` |
| Codec.MessageFrame | extensions/network/SocketIO.cpp:333-346 | `3::`, the path (the root as nothing), `:`, then the message unchanged at the end; read back by `Codec.DecodeMessageFrame` |
| Codec.EventPayload | extensions/network/SocketIO.cpp:348-362 | the event object holds the name and the arguments unescaped at fixed offsets; the name is read back by `Codec.EventNameOfPayload` |
| Codec.EventFrame | extensions/network/SocketIO.cpp:348-362 | `5::`, the path (the root as nothing), then the event object at the end; read back by `Codec.DecodeEventFrame` |
| Codec.AfterColon | extensions/network/SocketIO.cpp:397-406 | erasing through the first colon shortens a text that has one and leaves a text without one as it is |
| Codec.Split | extensions/network/SocketIO.cpp:408-417 | the endpoint segment split off the rest of a frame holds no colon |
| Codec.Decode | extensions/network/SocketIO.cpp:390-419 | the endpoint of every decoded frame is non-empty |
| Codec.DecodeFields | extensions/network/SocketIO.cpp:390-419 | with three colons, control = `atoi` of the head; endpoint = the third field, empty read as `/`; data = everything after the third colon, colons kept |
| Codec.DecodeShortFields | extensions/network/SocketIO.cpp:408-417 | with exactly two colons, the endpoint is the remaining text and the data is that same text |
| Codec.DecodeOneColon | extensions/network/SocketIO.cpp:397-417 | with one colon, the second erase finds none and leaves the text, so the endpoint and the data are both the text after the colon |
| Codec.DecodeNoColon | extensions/network/SocketIO.cpp:397-417 | with no colon, neither erase removes anything, so the endpoint and the data are both the whole frame |
| Codec.DecodeConnectFrame | extensions/network/SocketIO.cpp:290-298 | the connect frame for a path decodes to control 1 on that path |
| Codec.DecodeDisconnectFrame | extensions/network/SocketIO.cpp:310-316 | the scoped disconnect frame for a path decodes to control 0 on that path |
| Codec.DecodeHeartbeatFrame | extensions/network/SocketIO.cpp:322-330 | `2::` decodes to control 2 on the root with empty data |
| Codec.DecodeMessageFrame | extensions/network/SocketIO.cpp:333-346 | a message frame decodes back to control 3, its endpoint and the whole message |
| Codec.DecodeEventFrame | extensions/network/SocketIO.cpp:348-362 | an event frame decodes back to control 5, its endpoint and the event object |
| Codec.DecodeNonNumericControl | extensions/network/SocketIO.cpp:390 | a frame that does not start with a number has control 0 |
| Codec.EventName | extensions/network/SocketIO.cpp:451-460 | the extracted name holds no `"`, and is empty when the data holds no `,` |
| Codec.EventNameSplit | extensions/network/SocketIO.cpp:453-458 | the name is the text between the first `:` and the first `,` after it, with every `"` removed |
| Codec.EventNameWithoutColon | extensions/network/SocketIO.cpp:453-458 | with no `:` in the data (its index -1), the name is the text before the first `,`, with every `"` removed |
| Codec.EventNameCommaFirst | extensions/network/SocketIO.cpp:453-458 | a `,` before the first `:` gives the empty name |
| Codec.EventNameOfPayload | extensions/network/SocketIO.cpp:348-362 | the name extracted from an emitted event object is the emitted name, when it holds no `,` or `"` |
| Codec.WithoutQuotes | extensions/network/SocketIO.cpp:457-458 | removing the quotes from `"name"` gives back the name |
| Handshake.ParseHandshake | extensions/network/SocketIO.cpp:182-205 | as written, and as the session stores it: the sid holds no colon; the heartbeat always equals the timeout; a body without a colon gives `("", 0, 0)`; a body with a colon gives the text before the first colon as the sid |
| Handshake.ParseHandshakeShortBody | extensions/network/SocketIO.cpp:187-200 | a body with exactly one colon, such as `abc:20`, keeps the sid and gives heartbeat and timeout 0, because no colon follows in what is left |
| Handshake.ParseHandshakeReadsTimeoutTwice | extensions/network/SocketIO.cpp:193-200 | as written, both numbers of every well-formed body are the timeout |
| Handshake.ParseHandshakeExample | extensions/network/SocketIO.cpp:182-205 | `abc123:20:60` parses to heartbeat 60 as written and to 20 when corrected |
| Handshake.ParseHandshakeFields | extensions/network/SocketIO.cpp:182-205 | corrected parse: same sid and timeout as the code; defaults `("", 0, 0)` without a colon |
| Handshake.ParseHandshakeFieldsRoundTrip | extensions/network/SocketIO.cpp:182-205 | the corrected parse reads sid, heartbeat and timeout back from every well-formed body, with or without a transports tail |
| Handshake.HandshakeUrl | extensions/network/SocketIO.cpp:119-120 | `http://`, the `host:port` key, then `/socket.io/1` |
| Handshake.SocketUrl | extensions/network/SocketIO.cpp:218-219 | the key with no scheme, `/socket.io/1/websocket/`, then the session id |
| Address.StripScheme | extensions/network/SocketIO.cpp:637-640 | what is left is a suffix of the URI, and a URI in which `//` never occurs is left as it is |
| Address.NoSchemeWithoutSlash | extensions/network/SocketIO.cpp:637-640 | a URI with no `/` has no scheme part to strip |
| Address.ParseUri | extensions/network/SocketIO.cpp:634-658 | the host holds no colon; the path starts with `/`; the port is unset exactly when no colon follows the scheme, and then the host also holds no `/` |
| Address.PortOf | extensions/network/SocketIO.cpp:642-645 | the port is unset exactly when there is no colon |
| Address.PathOf | extensions/network/SocketIO.cpp:647-651 | the path always starts with `/`, and is `/` alone when the text holds no `/` |
| Address.HostOf | extensions/network/SocketIO.cpp:653-658 | the host holds no colon, and no `/` when the text has no colon |
| Address.ParseUriWithPort | extensions/network/SocketIO.cpp:634-658 | `scheme//host:port/path` parses to host, port and `/path` |
| Address.ParseUriFields | extensions/network/SocketIO.cpp:634-658 | with a port field, the port is `atoi` of everything after the colon |
| Address.ParseUriWithoutPort | extensions/network/SocketIO.cpp:634-658 | `scheme//host/path` leaves the port unset and ends the host at the first `/` |
| Address.ParseUriHostPort | extensions/network/SocketIO.cpp:634-658 | `host:port` with no scheme and no path parses to the host, the port and the default path `/` |
| Address.ParseUriSchemeHost | extensions/network/SocketIO.cpp:634-658 | `scheme//host` leaves the port unset and gives the default path `/` |
| Address.ParseUriHostOnly | extensions/network/SocketIO.cpp:634-658 | a bare host leaves the port unset and gives the default path `/` |
| Address.ParseUriNoScheme | extensions/network/SocketIO.cpp:634-658 | `host:port/path` with no scheme, such as `example.com:80/chat`, parses to the host, the port and `/path` |
| Address.ParseUriNoSchemeNoPort | extensions/network/SocketIO.cpp:634-658 | `host/path` with no scheme leaves the port unset and parses to the host and `/path` |
| Address.OneSlashNoScheme | extensions/network/SocketIO.cpp:637-640 | a URI whose only `/` separates two parts has no `//`, so nothing is stripped |
| Address.ParseUriDoubleSlashInPath | extensions/network/SocketIO.cpp:637-658 | the `//` search runs over the whole URI, so `host:port/a//b` without a scheme is cut at the `//`: the host is `b`, the port unset and the path `/` |
| Address.HostPortOfColon | extensions/network/SocketIO.cpp:642-656 | whatever precedes the first `:`, `/` included, is the host, and the port is `atoi` of everything after that colon |
| Address.PathOfSlash | extensions/network/SocketIO.cpp:647-651 | the path is `/` plus everything after the first `/`, colons included |
| Address.ParseUriColonInPath | extensions/network/SocketIO.cpp:634-658 | a colon after the first `/` still ends the host and starts the port: `scheme//host/a:b` gives host `host/a`, port `atoi(b)` and path `/a:b` |
| Address.StripSchemeOf | extensions/network/SocketIO.cpp:637-640 | the scheme and `//` are removed |
| Address.HostPort | extensions/network/SocketIO.cpp:99-101 | the key is the host, `:`, then the port as stream output writes it |
| Address.HostPortInjective | extensions/network/SocketIO.cpp:99-101 | two colon-free hosts share a `host:port` key only when the host and the port are both equal |
| Transport.Disconnected | extensions/network/SocketIO.cpp:242-262 | after a full disconnect: the socket is not open, the session is not connected, no heartbeat is scheduled; an open socket gets `0::` and ends closed; any other socket sends nothing and keeps its state |
| Transport.LeaveEndpoint | extensions/network/SocketIO.cpp:300-320 | leaving removes exactly that path |
| Transport.LeaveOneOfSeveral | extensions/network/SocketIO.cpp:300-320 | leaving a non-root path while another remains sends `0::path` and leaves the socket, connection and heartbeat as they were |
| Transport.LeaveLastEndpoint | extensions/network/SocketIO.cpp:300-320 | leaving the last path of a connected open session sends `0::`, closes the socket and stops the heartbeat |
| Transport.LeaveRoot | extensions/network/SocketIO.cpp:304-308 | leaving the root of a connected session is a full disconnect even when other paths remain |
| Transport.LeaveBeforeOpen | extensions/network/SocketIO.cpp:304-308 | leaving the last path of a session that never connected sends nothing |
| Transport.LeaveEndpointCases | extensions/network/SocketIO.cpp:300-320 | every case: when the map empties or the root leaves, a full `Disconnected` of the remaining paths if connected and a bare removal otherwise; in every other case `0::path` is appended and the socket, connection and heartbeat are kept |
| Transport.ConnectFrames | extensions/network/SocketIO.cpp:372-378 | the socket opening yields a connect frame for every non-root path, and one frame per path when the root is absent |
| Transport.ConnectFramesExact | extensions/network/SocketIO.cpp:372-378 | exactly one frame per visit of a non-root path, and every frame is the connect frame of a visited non-root path |
| Transport.ConnectFramesConcat | extensions/network/SocketIO.cpp:372-378 | the frames follow the visiting order: those of an earlier part of the order come first |
| Transport.Opened | extensions/network/SocketIO.cpp:364-384 | the socket is open, the session connected and the heartbeat running; the paths are kept; the earlier frames are kept and a connect frame follows for every visited non-root path |
| Transport.Route | extensions/network/SocketIO.cpp:423-475 | code 0 always leaves the endpoint, telling the client when there is one; 1, 3/4, 5 and 7 act only for a registered endpoint; every other code does nothing; delivered text is the data; the event name is `EventName(data)` and the handler gets the whole data |
| Transport.RouteMessageFrame | extensions/network/SocketIO.cpp:440-447 | a message frame for a joined endpoint is delivered with its text |
| Transport.RouteEventFrame | extensions/network/SocketIO.cpp:448-462 | an emitted event frame fires the handler of the emitted name with the whole event object |
| Transport.RouteNonNumericFrame | extensions/network/SocketIO.cpp:390 | a frame without a leading number is handled like a disconnect |
| Transport.RouteHeartbeatFrame | extensions/network/SocketIO.cpp:437-439 | a received heartbeat is ignored |
| Transport.EnumeratesSingleton | extensions/network/SocketIO.cpp:372 | iterating a one-entry dictionary visits that entry alone |
| Network.Touched | extensions/network/SocketIO.cpp:591-595 | the lookup keeps every registered handler and adds a missing name with an empty handler |
| Network.Fired | extensions/network/SocketIO.cpp:591-606 | firing calls at most one handler: exactly one when the name has a non-empty handler, and that one with the data |
| Network.FireAfterOn | extensions/network/SocketIO.cpp:585-606 | after `on(name, h)`, firing `name` calls `h` |
| Network.FireUnregistered | extensions/network/SocketIO.cpp:591-606 | firing an unregistered name calls nothing and leaves an empty entry that still calls nothing; a second lookup changes nothing |
| Network.Notify | extensions/network/SocketIO.cpp:159-165 | one delegate call per visited client, in visiting order, each to that client's own delegate |
| Network.Log.Record | extensions/network/SocketIO.cpp:536-541 | a call into application code is appended to the log |
| Network.Client.constructor | extensions/network/SocketIO.cpp:506-516 | a new client is not connected and has no handlers |
| Network.Client.OnOpen | extensions/network/SocketIO.cpp:526-534 | a non-root client sends its connect frame; the root sends nothing |
| Network.Client.OnConnect | extensions/network/SocketIO.cpp:536-541 | the client is connected and its delegate gets exactly one `onConnect` |
| Network.Client.Send | extensions/network/SocketIO.cpp:543-551 | connected: exactly one message frame and no delegate call; not connected: no frame and exactly one `onError("Client not yet connected")` |
| Network.Client.Emit | extensions/network/SocketIO.cpp:553-561 | connected: exactly one event frame and no delegate call; not connected: no frame and exactly one `onError("Client not yet connected")` |
| Network.Client.Disconnect | extensions/network/SocketIO.cpp:563-573 | the session leaves the path per `LeaveEndpoint`, and leaves the registry exactly when that is a teardown; one `onClose`; the client ends disconnected and released |
| Network.Client.ReceivedDisconnect | extensions/network/SocketIO.cpp:575-583 | the client is disconnected and released, with one `onClose` |
| Network.Client.On | extensions/network/SocketIO.cpp:585-589 | the handler for the name is replaced and the others kept |
| Network.Client.FireEvent | extensions/network/SocketIO.cpp:591-606 | the registry after the lookup is `Touched`, and the calls made are `Fired` |
| Network.Session.constructor | extensions/network/SocketIO.cpp:91-105 | the key is `host:port`; no clients, no socket, not connected |
| Network.Session.Connect | extensions/network/SocketIO.cpp:116-136 | starting the handshake requests `http://host:port/socket.io/1` |
| Network.Session.HandshakeResponse | extensions/network/SocketIO.cpp:138-211 | failure: every client's delegate gets one `onError(errorBuffer)`, in dictionary order, and nothing else changes; success: no delegate call, the body parsed as written (`ParseHandshake`, so the heartbeat is the timeout), the socket created on the session URL |
| Network.Session.OpenSocket | extensions/network/SocketIO.cpp:213-227 | the socket URL is `host:port/socket.io/1/websocket/<sid>`; a socket that fails init is dropped |
| Network.Session.Disconnect | extensions/network/SocketIO.cpp:242-262 | the wire state becomes `Disconnected` of the old one, and the registry loses exactly this key |
| Network.Session.GetClient | extensions/network/SocketIO.cpp:278-282 | the lookup finds a client exactly when the path is joined, and that client is filed under its own path in this session |
| Network.Session.AddClient | extensions/network/SocketIO.cpp:284-288 | the client is filed under the path, replacing any other |
| Network.Session.ConnectToEndpoint | extensions/network/SocketIO.cpp:290-298 | exactly one connect frame for the path is sent |
| Network.Session.DisconnectFromEndpoint | extensions/network/SocketIO.cpp:300-320 | the wire state becomes `LeaveEndpoint` of the old one; the path leaves the map; the registry loses the key exactly on a teardown |
| Network.Session.Heartbeat | extensions/network/SocketIO.cpp:322-330 | exactly one `2::` is sent |
| Network.Session.Send | extensions/network/SocketIO.cpp:333-346 | exactly one message frame is sent |
| Network.Session.Emit | extensions/network/SocketIO.cpp:348-362 | exactly one event frame is sent |
| Network.Session.OnOpen | extensions/network/SocketIO.cpp:364-384 | the session joins the registry under its key; the wire state becomes `Opened` for an enumeration of the joined paths |
| Network.Session.AnnounceAll | extensions/network/SocketIO.cpp:370-378 | every joined path is visited once, and the frames sent are `ConnectFrames` of the visiting order |
| Network.Session.OnMessage | extensions/network/SocketIO.cpp:386-478 | the frame is decoded with `Decode`, and the session, clients, registry and log change as `Route` says; of the target client only the field the action sets changes |
| Network.Session.EndpointLeft | extensions/network/SocketIO.cpp:428-432 | a received disconnect tells the client first when there is one (one `onClose`, disconnected and released), then the wire state becomes `LeaveEndpoint` and the registry loses the key on a teardown |
| Network.Session.Receive | extensions/network/SocketIO.cpp:419-475 | per action: leave (`LeaveEndpoint`, the client told first when registered, its handlers kept), connect (only `connected` set), deliver, fire (only the handlers touched), error or nothing; a non-leave keeps the wire state and registry |
| Network.Session.OnClose | extensions/network/SocketIO.cpp:480-498 | the socket is closed and the session released; every client was told once, in dictionary order, and is disconnected and released |
| Network.Session.TellAllClosed | extensions/network/SocketIO.cpp:482-492 | every client is visited once, told `onClose`, and left disconnected and released |
| Network.Registry.constructor | extensions/network/SocketIO.cpp:611-616 | the registry starts empty |
| Network.Registry.GetSocket | extensions/network/SocketIO.cpp:700-704 | a session is found exactly when one is filed under the key, and it is that session |
| Network.Registry.AddSocket | extensions/network/SocketIO.cpp:706-708 | the session is filed under the key |
| Network.Registry.RemoveSocket | extensions/network/SocketIO.cpp:710-712 | the key, and only it, is removed |
| Network.Registry.Connect | extensions/network/SocketIO.cpp:632-698 | the URI is parsed; a registered key reuses its session and a joined path's client, adding and sending nothing; a new path sends `1::path` at once; a new key makes a session that only starts its handshake and stays out of the registry, with a fresh client that is not connected; every other session keeps its clients and outbox |
| Network.Registry.ConnectTo | extensions/network/SocketIO.cpp:660-697 | the same three cases for an already parsed host, port and path, with the new session's whole state; every other session keeps its clients and outbox |
| Scenario.ChatExchange | extensions/network/SocketIO.cpp:364-384 | connect, open, confirm, send, heartbeat, disconnect, close: frames `1::p`, `3::p:msg`, `2::`, `0::`; exactly one `onConnect` and one `onClose`; the registry ends empty |
| Scenario.OpenSession | extensions/network/SocketIO.cpp:138-211 | after a successful handshake and the socket opening, the session holds the client, has sent `1::path` and is in the registry |
| Scenario.NewSession | extensions/network/SocketIO.cpp:663-676 | the first connect makes a session with the one client, no socket, and no registry entry |
| Scenario.ServerConfirms | extensions/network/SocketIO.cpp:433-436 | a received connect for the path marks the client connected with one `onConnect`; its handlers and `released` flag, the wire state, the client map and the registry are unchanged |
| Scenario.Talk | extensions/network/SocketIO.cpp:543-551 | a connected client's message and a heartbeat are sent in that order, with no delegate call |
| Scenario.LeaveLast | extensions/network/SocketIO.cpp:563-573 | the last client leaving sends `0::`, closes the socket, stops the heartbeat and empties the registry entry, with one `onClose` |
| Scenario.SocketCloses | extensions/network/SocketIO.cpp:480-498 | a close after every client left tells no delegate anything |
| Scenario.ConnectTwiceBeforeOpen | extensions/network/SocketIO.cpp:663-676 | two connects to one address before its socket opens make two sessions, each with its own handshake |

## Left out

- The HTTP request object, its tag, the response callback wiring and the HTTP client (`SocketIO.cpp:116-136`, `:138-151`) are left out. Starting the handshake is recorded as its URL in `requests`, and the answer is a `HttpResponse` value.
- Status-code logging, the `statusString` buffer and every `CCLog` are diagnostics only.
- The WebSocket is abstracted:
  - its `init` result is the `socketReady` parameter;
  - its ready state is `Ws`;
  - frames handed to `send` go to the outbox.

  Its own `onError` callback (`:500-503`) has an empty body, so there is nothing to model.
- Frames are text: a WebSocket frame holding a NUL byte is read only up to that byte by the C string copy at `:390-393`, which the model does not capture.
- `atoi` and `int` overflow are left out. Numbers are unbounded, while C leaves an out-of-range `atoi` undefined.
- The scheduler is abstracted:
  - the heartbeat timer is the `heartbeatScheduled` flag;
  - each firing is a `Heartbeat` call;
  - the float interval `_heartbeat * .9` (`:380`) is not computed.
- Reference counting, destructors, `create`/`init` (which always succeeds), and the lazy singleton are left out. `release()` is the `released` flag, and the registry is an object passed in.
- The message id at `:402-405` is computed but never used, so it is not modelled.
- Dictionary iteration order (`CCDICT_FOREACH`) is unspecified: each loop picks any remaining key and returns the ghost visiting `order`.
- Delegates and event handlers are identities (`DelegateId`, `HandlerId`). What application code does when called is outside the library.
- Network.Session.Disconnect: on a session whose socket was never created (`_ws` NULL) the source dereferences a null pointer. The model treats that state as not open and sends nothing.
- Network.Session.ConnectToEndpoint: sending on a NULL `_ws` is likewise undefined. The model records the frame whatever the socket's state.
- Network.Registry.Connect: when the URI names no port, the source uses an uninitialised `int`. The model takes that value as the `unsetPort` parameter.
- Scenario.ServerConfirms: hands the session the packet `Packet(1, path, Segment(path))` rather than a frame. That packet is what the server's connect frame for the path decodes to, by `Codec.DecodeConnectFrame`.

## Findings

| source | as written | input that shows it | evidently intended | confidence | as-written member | corrected member |
|---|---|---|---|---|---|---|
| extensions/network/SocketIO.cpp:193-200 | after the sid is erased, the heartbeat and the timeout are both `atoi` of the text after the next colon, which is the timeout field | body `abc123:20:60` gives heartbeat 60 and timeout 60 | the heartbeat is the field right after the sid (20) | high; not executed | Handshake.ParseHandshakeExample | Handshake.ParseHandshakeFieldsRoundTrip |
