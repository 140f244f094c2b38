/**
 * The handshake: the HTTP request that opens a Socket.IO session, the
 * `sid:heartbeat:timeout[:transports]` body the server answers with, and the
 * WebSocket address built from the session id.
 */
module Handshake {
  import opened Text

  datatype Handshake = Handshake(sid: string, heartbeat: int, timeout: int)

  /** The URL of the handshake request for a `host:port` key. */
  function HandshakeUrl(hostPort: string): (url: string)
    ensures |url| == |hostPort| + 19
    ensures url[..7] == "http://" && url[7..7 + |hostPort|] == hostPort && url[7 + |hostPort|..] == "/socket.io/1"
  {
    "http://" + hostPort + "/socket.io/1"
  }

  /** The address the WebSocket is opened on; it carries no scheme. */
  function SocketUrl(hostPort: string, sid: string): (url: string)
    ensures |url| == |hostPort| + 23 + |sid|
    ensures url[..|hostPort|] == hostPort && url[|hostPort|..|hostPort| + 23] == "/socket.io/1/websocket/"
    ensures url[|url| - |sid|..] == sid
  {
    hostPort + "/socket.io/1/websocket/" + sid
  }

  /**
   * The body parse as SIOClientImpl::handshakeResponse writes it. The sid is the
   * text before the first colon ("" when there is none) and is erased with that
   * colon; both numbers are then `atoi` of the text after the next colon of what
   * is left, so the heartbeat is read from the timeout field.
   */
  function ParseHandshake(body: string): (h: Handshake)
    ensures ':' !in h.sid
    ensures h.heartbeat == h.timeout
    ensures ':' !in body ==> h == Handshake("", 0, 0)
    ensures ':' in body ==> h.sid == body[..Find(body, ':')]
  {
    var i := Find(body, ':');
    var sid := if i >= 0 then body[..i] else "";
    var rest := if i >= 0 then After(body, i) else body;
    var j := Find(rest, ':');
    var heartbeat := if j >= 0 then Atoi(After(rest, j)) else 0;
    var k := Find(rest, ':');
    var timeout := if k >= 0 then Atoi(After(rest, k)) else 0;
    Handshake(sid, heartbeat, timeout)
  }

  /**
   * The body parse with the heartbeat read from its own field, the one right
   * after the sid; sid and timeout are found as before.
   */
  function ParseHandshakeFields(body: string): (h: Handshake)
    ensures h.sid == ParseHandshake(body).sid
    ensures h.timeout == ParseHandshake(body).timeout
    ensures ':' !in body ==> h == Handshake("", 0, 0)
  {
    var i := Find(body, ':');
    var sid := if i >= 0 then body[..i] else "";
    var rest := if i >= 0 then After(body, i) else body;
    var heartbeat := if i >= 0 then Atoi(rest) else 0;
    var k := Find(rest, ':');
    var timeout := if k >= 0 then Atoi(After(rest, k)) else 0;
    Handshake(sid, heartbeat, timeout)
  }

  /** A body the server writes as `sid:heartbeat:timeout[:transports]`. */
  function HandshakeBody(sid: string, heartbeat: nat, timeout: nat, tail: string): string {
    sid + ":" + NatToString(heartbeat) + ":" + NatToString(timeout) + tail
  }

  /** The corrected parse reads every field of a well-formed body back. */
  lemma {:induction false} ParseHandshakeFieldsRoundTrip(sid: string, heartbeat: nat, timeout: nat, tail: string)
    requires ':' !in sid
    requires tail == "" || tail[0] == ':'
    ensures ParseHandshakeFields(HandshakeBody(sid, heartbeat, timeout, tail)) == Handshake(sid, heartbeat, timeout)
  {
    DigitsValueOfNatToString(heartbeat);
    DigitsValueOfNatToString(timeout);
    ParseHandshakeFieldsOfDigits(sid, NatToString(heartbeat), NatToString(timeout), tail);
  }

  lemma {:induction false} ParseHandshakeFieldsOfDigits(sid: string, h: string, t: string, tail: string)
    requires ':' !in sid
    requires |h| > 0 && AllDigits(h) && |t| > 0 && AllDigits(t)
    requires tail == "" || tail[0] == ':'
    ensures ParseHandshakeFields(sid + ":" + h + ":" + t + tail) == Handshake(sid, DigitsValue(h), DigitsValue(t))
  {
    var body := sid + ":" + h + ":" + t + tail;
    var rest := h + ":" + t + tail;
    assert body == sid + [':'] + rest;
    FindAfterPrefix(sid, ':', rest);
    assert body[..|sid|] == sid;
    NonDigitNotIn(h, ':');
    assert rest == h + [':'] + (t + tail);
    FindAfterPrefix(h, ':', t + tail);
    Associative(h, ":", t + tail);
    Associative(":", t, tail);
    Associative(h + ":", t, tail);
    AtoiOfDigits(h, ":" + t + tail);
    AtoiOfDigits(t, tail);
    assert Atoi(rest) == DigitsValue(h);
    assert Atoi(After(rest, |h|)) == DigitsValue(t);
  }

  /** The parse as written reads the timeout into both numbers of a well-formed body. */
  lemma {:induction false} ParseHandshakeReadsTimeoutTwice(sid: string, heartbeat: nat, timeout: nat, tail: string)
    requires ':' !in sid
    requires tail == "" || tail[0] == ':'
    ensures ParseHandshake(HandshakeBody(sid, heartbeat, timeout, tail)) == Handshake(sid, timeout, timeout)
  {
    ParseHandshakeFieldsRoundTrip(sid, heartbeat, timeout, tail);
  }

  /** A body with one colon, `sid:rest`: the sid is kept and both numbers default to 0. */
  lemma ParseHandshakeShortBody(sid: string, rest: string)
    requires ':' !in sid && ':' !in rest
    ensures ParseHandshake(sid + ":" + rest) == Handshake(sid, 0, 0)
  {
    var body := sid + ":" + rest;
    assert body == sid + [':'] + rest;
    FindAfterPrefix(sid, ':', rest);
    assert body[..|sid|] == sid;
  }

  /** The body of the end-to-end example: the heartbeat of 20 is read as 60. */
  lemma ParseHandshakeExample()
    ensures ParseHandshake("abc123:20:60") == Handshake("abc123", 60, 60)
    ensures ParseHandshakeFields("abc123:20:60") == Handshake("abc123", 20, 60)
  {
    ParseHandshakeFieldsExample();
  }

  lemma ParseHandshakeFieldsExample()
    ensures ParseHandshakeFields("abc123:20:60") == Handshake("abc123", 20, 60)
  {
    assert "abc123:20:60" == "abc123" + ":" + "20" + ":" + "60" + "";
    assert DigitsValue("20") == 20 && DigitsValue("60") == 60;
    ParseHandshakeFieldsOfDigits("abc123", "20", "60", "");
  }
}
