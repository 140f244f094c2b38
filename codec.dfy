/**
 * Socket.IO protocol revision 1 packet frames, as the client writes and reads
 * them: `control:msgid:endpoint:data`, where the root endpoint "/" travels as
 * an empty segment.
 */
module Codec {
  import opened Text

  /** The endpoint as written into a frame: the root path "/" becomes an empty segment. */
  function Segment(endpoint: string): (seg: string)
    ensures seg != "/"
    ensures endpoint == "/" ==> seg == ""
    ensures endpoint != "/" ==> seg == endpoint
  {
    if endpoint == "/" then "" else endpoint
  }

  /** The endpoint a decoded segment names: an empty segment is the root "/". */
  function EndpointOf(seg: string): (endpoint: string)
    ensures endpoint != ""
    ensures seg == "" ==> endpoint == "/"
    ensures seg != "" ==> endpoint == seg
  {
    if seg == "" then "/" else seg
  }

  // ---- encoders (what SIOClientImpl hands to the WebSocket) ----

  /** Leave one endpoint: control 0, no message id, the path as a segment. */
  function DisconnectFrame(endpoint: string): (frame: string)
    ensures |frame| >= 3 && frame[..3] == "0::"
    ensures endpoint == "/" ==> frame == "0::"
    ensures endpoint != "/" ==> frame[3..] == endpoint
  {
    "0::" + Segment(endpoint)
  }

  /** Join one endpoint: control 1, no message id, the path as a segment. */
  function ConnectFrame(endpoint: string): (frame: string)
    ensures |frame| >= 3 && frame[..3] == "1::"
    ensures endpoint == "/" ==> frame == "1::"
    ensures endpoint != "/" ==> frame[3..] == endpoint
  {
    "1::" + Segment(endpoint)
  }

  const HeartbeatFrame: string := "2::"

  /** A text message: control 3, the path as a segment, then the message as it is. */
  function MessageFrame(endpoint: string, msg: string): (frame: string)
    ensures |frame| >= 4 + |msg| && frame[..3] == "3::" && frame[|frame| - |msg|..] == msg
    ensures endpoint == "/" ==> frame == "3:::" + msg
    ensures endpoint != "/" ==> |frame| == 4 + |endpoint| + |msg| && frame[3..3 + |endpoint|] == endpoint
  {
    "3::" + Segment(endpoint) + ":" + msg
  }

  /** The event object `{"name":"<name>","args":<args>}`; neither part is escaped or checked. */
  function EventPayload(name: string, args: string): (payload: string)
    ensures |payload| == 19 + |name| + |args|
    ensures payload[9..9 + |name|] == name && payload[18 + |name|..|payload| - 1] == args
  {
    "{\"name\":\"" + name + "\",\"args\":" + args + "}"
  }

  /** An event: control 5, the path as a segment, then the event object. */
  function EventFrame(endpoint: string, name: string, args: string): (frame: string)
    ensures |frame| >= 23 + |name| + |args| && frame[..3] == "5::"
    ensures frame[|frame| - 19 - |name| - |args|..] == EventPayload(name, args)
    ensures endpoint == "/" ==> frame == "5:::" + EventPayload(name, args)
  {
    var head, payload := "5::" + Segment(endpoint) + ":", EventPayload(name, args);
    assert (head + payload)[..3] == head[..3] && (head + payload)[|head|..] == payload;
    head + payload
  }

  // ---- decoder (the field split at the top of SIOClientImpl::onMessage) ----

  /** A received frame: the message id is split off and dropped, since nothing reads it. */
  datatype Packet = Packet(control: int, endpoint: string, data: string)

  /**
   * The text after the first ':', as `s.erase(0, s.find(":") + 1)` leaves it:
   * all of `s` when there is no colon.
   */
  function AfterColon(s: string): (r: string)
    ensures ':' in s ==> |r| < |s|
    ensures ':' !in s ==> r == s
  {
    After(s, Find(s, ':'))
  }

  /**
   * Split `control:msgid:endpoint:data`. The control code is `atoi` of the whole
   * frame. The endpoint is the text between the second and third colons; with no
   * third colon it is all the remaining text, and then the data is that same
   * remaining text. Colons inside the data are kept.
   */
  function Decode(frame: string): (p: Packet)
    ensures p.endpoint != ""
  {
    var (seg, data) := Split(AfterColon(AfterColon(frame)));
    Packet(Atoi(frame), EndpointOf(seg), data)
  }

  /**
   * The endpoint segment and the data after the message id: split at the next
   * ':', or, with no colon left, the whole text as both.
   */
  function Split(rest: string): (fields: (string, string))
    ensures ':' !in fields.0
  {
    var k := Find(rest, ':');
    if k >= 0 then (rest[..k], After(rest, k)) else (rest, rest)
  }

  /**
   * The event name the client looks up for an event packet: the text between the
   * first ':' and the first ',' of the data with every '"' removed, provided the
   * comma's index (-1 when absent) is greater than the colon's; otherwise "".
   */
  function EventName(data: string): (name: string)
    ensures '"' !in name
    ensures ',' !in data ==> name == ""
  {
    var colon := Find(data, ':');
    var comma := Find(data, ',');
    if comma > colon then Without(data[colon + 1..comma], '"') else ""
  }

  // ---- properties ----

  /** With three colons, the fields are the text between them and the data is everything after the third. */
  lemma DecodeFields(head: string, id: string, seg: string, data: string)
    requires ':' !in head && ':' !in id && ':' !in seg
    ensures Decode(head + (":" + (id + (":" + (seg + (":" + data)))))) == Packet(Atoi(head), EndpointOf(seg), data)
  {
    FieldsOf(head, id, seg + (":" + data));
    SplitAtColon(seg, data);
  }

  /** The control code is read from the head, and the text after the second colon is what is split. */
  lemma FieldsOf(head: string, id: string, rest: string)
    requires ':' !in head && ':' !in id
    ensures var frame := head + (":" + (id + (":" + rest)));
      Atoi(frame) == Atoi(head) && AfterColon(AfterColon(frame)) == rest
  {
    AfterColonOf(head, id + (":" + rest));
    AfterColonOf(id, rest);
    AtoiThen(head, ":" + (id + (":" + rest)));
  }

  /** The third colon ends the endpoint segment and starts the data. */
  lemma SplitAtColon(seg: string, data: string)
    requires ':' !in seg
    ensures Split(seg + (":" + data)) == (seg, data)
  {
    Associative(seg, ":", data);
    FindAfterPrefix(seg, ':', data);
    Middle([], seg, ":" + data);
  }

  /** With only two colons, the endpoint is the rest of the frame and the data repeats it. */
  lemma DecodeShortFields(head: string, id: string, seg: string)
    requires ':' !in head && ':' !in id && ':' !in seg
    ensures Decode(head + (":" + (id + (":" + seg)))) == Packet(Atoi(head), EndpointOf(seg), seg)
  {
    FieldsOf(head, id, seg);
  }

  /** With a single colon, the endpoint is the text after it and the data repeats it. */
  lemma DecodeOneColon(head: string, rest: string)
    requires ':' !in head && ':' !in rest
    ensures Decode(head + (":" + rest)) == Packet(Atoi(head), EndpointOf(rest), rest)
  {
    AfterColonOf(head, rest);
    AtoiThen(head, ":" + rest);
  }

  /** With no colon at all, the whole frame is both the endpoint and the data. */
  lemma DecodeNoColon(frame: string)
    requires ':' !in frame
    ensures Decode(frame) == Packet(Atoi(frame), EndpointOf(frame), frame)
  {
    assert AfterColon(frame) == frame;
    assert Split(frame) == (frame, frame);
  }

  lemma AfterColonOf(a: string, b: string)
    requires ':' !in a
    ensures AfterColon(a + (":" + b)) == b
  {
    Associative(a, ":", b);
    FindAfterPrefix(a, ':', b);
  }

  lemma AtoiOfDigit(n: nat)
    requires n < 10
    ensures Atoi([DigitChar(n)]) == n
  {
    AtoiOfIntToString(n, "");
    assert IntToString(n) + "" == [DigitChar(n)];
  }

  /** A connect frame decodes to control 1 and the endpoint it was written for. */
  lemma DecodeConnectFrame(endpoint: string)
    requires endpoint != "" && ':' !in endpoint
    ensures Decode(ConnectFrame(endpoint)) == Packet(1, endpoint, Segment(endpoint))
  {
    assert ConnectFrame(endpoint) == "1" + (":" + ("" + (":" + Segment(endpoint))));
    DecodeShortFields("1", "", Segment(endpoint));
    AtoiOfDigit(1);
  }

  /** A scoped disconnect frame decodes to control 0 and the endpoint it was written for. */
  lemma DecodeDisconnectFrame(endpoint: string)
    requires endpoint != "" && ':' !in endpoint
    ensures Decode(DisconnectFrame(endpoint)) == Packet(0, endpoint, Segment(endpoint))
  {
    assert DisconnectFrame(endpoint) == "0" + (":" + ("" + (":" + Segment(endpoint))));
    DecodeShortFields("0", "", Segment(endpoint));
    AtoiOfDigit(0);
  }

  /** The heartbeat frame decodes to control 2 on the root endpoint. */
  lemma DecodeHeartbeatFrame()
    ensures Decode(HeartbeatFrame) == Packet(2, "/", "")
  {
    assert HeartbeatFrame == "2" + (":" + ("" + (":" + "")));
    DecodeShortFields("2", "", "");
    AtoiOfDigit(2);
  }

  /** A message frame decodes to control 3, its endpoint and the message, colons and all. */
  lemma DecodeMessageFrame(endpoint: string, msg: string)
    requires endpoint != "" && ':' !in endpoint
    ensures Decode(MessageFrame(endpoint, msg)) == Packet(3, endpoint, msg)
  {
    assert MessageFrame(endpoint, msg) == "3" + (":" + ("" + (":" + (Segment(endpoint) + (":" + msg)))));
    DecodeFields("3", "", Segment(endpoint), msg);
    AtoiOfDigit(3);
  }

  /** An event frame decodes to control 5, its endpoint and the event object. */
  lemma DecodeEventFrame(endpoint: string, name: string, args: string)
    requires endpoint != "" && ':' !in endpoint
    ensures Decode(EventFrame(endpoint, name, args)) == Packet(5, endpoint, EventPayload(name, args))
  {
    EventFrameFields(endpoint, name, args);
    DecodeFields("5", "", Segment(endpoint), EventPayload(name, args));
    AtoiOfDigit(5);
  }

  lemma EventFrameFields(endpoint: string, name: string, args: string)
    ensures EventFrame(endpoint, name, args)
      == "5" + (":" + ("" + (":" + (Segment(endpoint) + (":" + EventPayload(name, args))))))
  {
    var payload := EventPayload(name, args);
    assert "5::" + Segment(endpoint) + ":" + payload
      == "5" + (":" + ("" + (":" + (Segment(endpoint) + (":" + payload)))));
  }

  /**
   * A frame that does not start with a number (after white space and a sign)
   * decodes to control 0, the disconnect code.
   */
  lemma DecodeNonNumericControl(frame: string)
    requires |frame| > 0 && !IsDigit(frame[0]) && !IsSpace(frame[0]) && frame[0] != '-' && frame[0] != '+'
    ensures Decode(frame).control == 0
  {
    AtoiWithoutDigits(frame);
  }

  /** The name extracted from an emitted event object is the emitted name, when it has no ',' or '"'. */
  lemma EventNameOfPayload(name: string, args: string)
    requires ',' !in name && '"' !in name
    ensures EventName(EventPayload(name, args)) == name
  {
    var quoted := "\"" + name + "\"";
    PayloadShape(name, args);
    EventNameOfSplit(EventPayload(name, args), "{\"name\"", quoted, "\"args\":" + args + "}");
    WithoutQuotes(name);
  }

  /** The event object is `{"name"`, ':', the quoted name, ',' and the args part. */
  lemma PayloadShape(name: string, args: string)
    ensures EventPayload(name, args) == "{\"name\"" + [':'] + ("\"" + name + "\"") + [','] + ("\"args\":" + args + "}")
  {
  }

  /** The name lies between the first ':' and the first ',' that follows it. */
  lemma EventNameSplit(a: string, b: string, c: string)
    requires ':' !in a && ',' !in a && ',' !in b
    ensures EventName(a + [':'] + b + [','] + c) == Without(b, '"')
  {
    EventNameOfSplit(a + [':'] + b + [','] + c, a, b, c);
  }

  lemma EventNameOfSplit(data: string, a: string, b: string, c: string)
    requires data == a + [':'] + b + [','] + c
    requires ':' !in a && ',' !in a && ',' !in b
    ensures EventName(data) == Without(b, '"')
  {
    SplitPoints(data, a, b, c);
    EventNameAt(data, |a|, |a| + 1 + |b|, b);
  }

  /** Where the first ':' and the first ',' of `a:b,c` lie, and what lies between them. */
  lemma SplitPoints(data: string, a: string, b: string, c: string)
    requires data == a + [':'] + b + [','] + c
    requires ':' !in a && ',' !in a && ',' !in b
    ensures Find(data, ':') == |a| && Find(data, ',') == |a| + 1 + |b|
    ensures |a| + 1 + |b| < |data| && data[|a| + 1..|a| + 1 + |b|] == b
  {
    SplitColonAt(data, a, b, c);
    SplitCommaAt(data, a, b, c);
    SplitMiddle(data, a, b, c);
  }

  lemma SplitColonAt(data: string, a: string, b: string, c: string)
    requires data == a + [':'] + b + [','] + c
    requires ':' !in a
    ensures Find(data, ':') == |a|
  {
    assert data == a + [':'] + (b + [','] + c);
    FindAfterPrefix(a, ':', b + [','] + c);
  }

  lemma SplitCommaAt(data: string, a: string, b: string, c: string)
    requires data == a + [':'] + b + [','] + c
    requires ',' !in a && ',' !in b
    ensures Find(data, ',') == |a| + 1 + |b|
  {
    NotInJoined(a, ':', b, ',');
    FindAfterPrefix(a + [':'] + b, ',', c);
  }

  lemma SplitMiddle(data: string, a: string, b: string, c: string)
    requires data == a + [':'] + b + [','] + c
    ensures |a| + 1 + |b| < |data| && data[|a| + 1..|a| + 1 + |b|] == b
  {
    Middle(a + [':'], b, [','] + c);
    assert data == a + [':'] + b + ([','] + c);
  }

  /** Once the colon and comma indices are known, the name is the quote-stripped text between them. */
  lemma EventNameAt(data: string, colon: int, comma: int, between: string)
    requires Find(data, ':') == colon && Find(data, ',') == comma && colon < comma
    requires data[colon + 1..comma] == between
    ensures EventName(data) == Without(between, '"')
  {
    assert Find(data, ',') > Find(data, ':');
    assert EventName(data) == Without(data[colon + 1..comma], '"');
  }

  /** With no ':' in the data, the name is the text before the first ',', with every '"' removed. */
  lemma EventNameWithoutColon(b: string, c: string)
    requires ':' !in b && ':' !in c && ',' !in b
    ensures EventName(b + [','] + c) == Without(b, '"')
  {
    var data := b + [','] + c;
    FindAfterPrefix(b, ',', c);
    assert data[..|b|] == b;
  }

  /** A ',' before the first ':' gives the empty name. */
  lemma EventNameCommaFirst(a: string, b: string, c: string)
    requires ',' !in a && ':' !in a && ':' !in b
    ensures EventName(a + [','] + b + [':'] + c) == ""
  {
    var data := a + [','] + b + [':'] + c;
    assert Find(data, ':') == |a| + 1 + |b| by {
      NotInJoined(a, ',', b, ':');
      FindAfterPrefix(a + [','] + b, ':', c);
    }
    assert Find(data, ',') == |a| by {
      assert data == a + [','] + (b + [':'] + c);
      FindAfterPrefix(a, ',', b + [':'] + c);
    }
  }

  lemma NotInJoined(a: string, sep: char, b: string, c: char)
    requires c !in a && c != sep && c !in b
    ensures c !in a + [sep] + b
  {
  }

  lemma Middle(p: string, b: string, q: string)
    ensures (p + b + q)[|p|..|p| + |b|] == b
  {
  }

  lemma WithoutQuotes(name: string)
    requires '"' !in name
    ensures Without("\"" + name + "\"", '"') == name
  {
    var q := "\"" + name + "\"";
    assert q[1..] == name + "\"";
    WithoutAppend(name, '"');
  }

  lemma {:induction false} WithoutAppend(s: string, c: char)
    requires c !in s
    ensures Without(s + [c], c) == s
  {
    if |s| > 0 {
      assert (s + [c])[1..] == s[1..] + [c];
      WithoutAppend(s[1..], c);
    }
  }
}
