/** The frames on the wire: a 4-byte header whose length field counts itself, and what follows it.
    A frame is kept as the bytes of the receive buffer, in which the length field is converted in place. */
module Wire {
  import opened SwitchTypes
  import opened LittleEndian

  const HEADER_SIZE: nat := 4
  const PUBLISH_SIZE: nat := 8
  const SERVICE_SIZE: nat := 11
  const RESULT_SIZE: nat := 1

  // The largest payload whose length plus the two bytes of the field itself fits the field.
  const MAX_PAYLOAD: nat := 65533

  // ----- The length field -----

  function HostLength(buf: seq<Byte>): Half
    requires |buf| >= HEADER_SIZE
  {
    buf[2] as int + 0x100 * buf[3] as int
  }

  function NetworkLength(buf: seq<Byte>): Half
    requires |buf| >= HEADER_SIZE
  {
    0x100 * buf[2] as int + buf[3] as int
  }

  function WithHostLength(buf: seq<Byte>, n: Half): (r: seq<Byte>)
    requires |buf| >= HEADER_SIZE
    ensures |r| == |buf|
  {
    buf[2 := n % 0x100][3 := n / 0x100]
  }

  function WithNetworkLength(buf: seq<Byte>, n: Half): (r: seq<Byte>)
    requires |buf| >= HEADER_SIZE
    ensures |r| == |buf|
  {
    buf[2 := n / 0x100][3 := n % 0x100]
  }

  // ConvertToNetworkMessage: a length that is not 0 grows by the two bytes of the field, in 16-bit arithmetic.
  function Counted(n: Half, selfIncluded: bool): Half {
    if n > 0 && selfIncluded then (n + 2) % 0x1_0000 else n
  }

  // FromNetworkMessage: a length of at least 2 shrinks by two.
  function Uncounted(n: Half, selfIncluded: bool): Half {
    if n >= 2 && selfIncluded then n - 2 else n
  }

  function ToNetwork(buf: seq<Byte>, selfIncluded: bool): (r: seq<Byte>)
    requires |buf| >= HEADER_SIZE
    ensures |r| == |buf|
  {
    WithNetworkLength(buf, Counted(HostLength(buf), selfIncluded))
  }

  function FromNetwork(buf: seq<Byte>, selfIncluded: bool): (r: seq<Byte>)
    requires |buf| >= HEADER_SIZE
    ensures |r| == |buf|
  {
    WithHostLength(buf, Uncounted(NetworkLength(buf), selfIncluded))
  }

  method ConvertToNetworkMessage(buf: array<Byte>, selfIncluded: bool)
    requires buf.Length >= HEADER_SIZE
    modifies buf
    ensures buf[..] == ToNetwork(old(buf[..]), selfIncluded)
  {
    var length: Half := buf[2] as int + 0x100 * buf[3] as int;
    if length > 0 && selfIncluded {
      length := (length + 2) % 0x1_0000;
    }
    buf[2], buf[3] := length / 0x100, length % 0x100;
  }

  method FromNetworkMessage(buf: array<Byte>, selfIncluded: bool)
    requires buf.Length >= HEADER_SIZE
    modifies buf
    ensures buf[..] == FromNetwork(old(buf[..]), selfIncluded)
  {
    var length: Half := 0x100 * buf[2] as int + buf[3] as int;
    if length >= 2 && selfIncluded {
      length := length - 2;
    }
    buf[2], buf[3] := length % 0x100, length / 0x100;
  }

  lemma LengthsWritten(buf: seq<Byte>, n: Half)
    requires |buf| >= HEADER_SIZE
    ensures HostLength(WithHostLength(buf, n)) == n && NetworkLength(WithNetworkLength(buf, n)) == n
  {
  }

  lemma LengthsReadBack(buf: seq<Byte>)
    requires |buf| >= HEADER_SIZE
    ensures WithHostLength(buf, HostLength(buf)) == buf && WithNetworkLength(buf, NetworkLength(buf)) == buf
  {
  }

  lemma DecodedLength(buf: seq<Byte>, self: bool)
    requires |buf| >= HEADER_SIZE
    ensures FromNetwork(ToNetwork(buf, self), self) == WithHostLength(buf, Uncounted(Counted(HostLength(buf), self), self))
  {
    var n := Counted(HostLength(buf), self);
    LengthsWritten(buf, n);
    hide Counted, Uncounted;
  }

  lemma EncodedLength(buf: seq<Byte>, self: bool)
    requires |buf| >= HEADER_SIZE
    ensures ToNetwork(FromNetwork(buf, self), self)
            == WithNetworkLength(buf, Counted(Uncounted(NetworkLength(buf), self), self))
  {
    var n := Uncounted(NetworkLength(buf), self);
    LengthsWritten(buf, n);
    hide Counted, Uncounted;
  }

  /** What a sender encodes the receiver decodes to the same bytes exactly up to payload length 65533. */
  lemma DecodeAfterEncode(buf: seq<Byte>)
    requires |buf| >= HEADER_SIZE
    ensures FromNetwork(ToNetwork(buf, true), true) == buf <==> HostLength(buf) <= MAX_PAYLOAD
    ensures FromNetwork(ToNetwork(buf, false), false) == buf
  {
    DecodedLength(buf, true);
    DecodedLength(buf, false);
    LengthsReadBack(buf);
    LengthsWritten(buf, Uncounted(Counted(HostLength(buf), true), true));
    hide HostLength, WithHostLength, ToNetwork, FromNetwork;
  }

  /** Forwarding decodes the buffer in place and encodes it again: the received bytes are restored exactly when the
      length field was neither 1 nor 2. */
  lemma ForwardingRestores(buf: seq<Byte>)
    requires |buf| >= HEADER_SIZE
    ensures ToNetwork(FromNetwork(buf, true), true) == buf <==> NetworkLength(buf) !in {1, 2}
    ensures ToNetwork(FromNetwork(buf, false), false) == buf
  {
    EncodedLength(buf, true);
    EncodedLength(buf, false);
    LengthsReadBack(buf);
    LengthsWritten(buf, Counted(Uncounted(NetworkLength(buf), true), true));
    hide NetworkLength, WithNetworkLength, ToNetwork, FromNetwork;
  }

  // ----- The flag byte: bit 7 response, bits 5 and 6 the codec -----

  predicate HasResponseFlag(buf: seq<Byte>)
    requires |buf| >= HEADER_SIZE
  {
    buf[1] / 0x80 == 1
  }

  function WithResponseFlag(buf: seq<Byte>): (r: seq<Byte>)
    requires |buf| >= HEADER_SIZE
    ensures |r| == |buf|
  {
    buf[1 := 0x80 + buf[1] % 0x80]
  }

  const JSON: Byte := 0x20

  // ----- Frames -----

  // SendCommandMessage: header, extension, payload.
  function Frame(cmd: Byte, ext: seq<Byte>, payload: seq<Byte>, selfIncluded: bool): (r: seq<Byte>)
    ensures |r| == HEADER_SIZE + |ext| + |payload|
  {
    var length: Half := (|payload| + |ext|) % 0x1_0000;
    ToNetwork([cmd, JSON, length % 0x100, length / 0x100], selfIncluded) + ext + payload
  }

  method SendCommandMessage(cmd: Byte, payload: seq<Byte>, ext: seq<Byte>, selfIncluded: bool)
    returns (sent: seq<Byte>)
    ensures sent == Frame(cmd, ext, payload, selfIncluded)
  {
    var header := new Byte[4];
    var length: Half := (|payload| + |ext|) % 0x1_0000;
    header[0], header[1], header[2], header[3] := cmd, JSON, length % 0x100, length / 0x100;
    assert header[..] == [cmd, JSON, length % 0x100, length / 0x100];
    ConvertToNetworkMessage(header, selfIncluded);
    sent := header[..];
    if ext != [] {
      sent := sent + ext;
    }
    if payload != [] {
      sent := sent + payload;
    }
  }

  // Which lengths survive the 16-bit field and the two bytes added and taken away again.
  lemma LengthSurvives(total: nat)
    ensures Uncounted(Counted(total % 0x1_0000, true), true) == total <==> total <= MAX_PAYLOAD
  {
  }

  lemma HeaderSurvives(header: seq<Byte>, rest: seq<Byte>, n: Half)
    requires |header| == HEADER_SIZE
    ensures var frame := WithNetworkLength(header, n) + rest;
            && NetworkLength(frame) == n && frame[0] == header[0] && frame[1] == header[1] && frame[HEADER_SIZE..] == rest
  {
    LengthsWritten(header, n);
  }

  lemma HostLengthSet(buf: seq<Byte>, n: Half)
    requires |buf| >= HEADER_SIZE
    ensures var r := WithHostLength(buf, n);
            HostLength(r) == n && r[0] == buf[0] && r[1] == buf[1] && r[HEADER_SIZE..] == buf[HEADER_SIZE..]
  {
    LengthsWritten(buf, n);
  }

  /** The receiver sees the command, the flags, the rest unchanged, and the true length exactly up to 65533 bytes. */
  lemma FrameReceived(cmd: Byte, ext: seq<Byte>, payload: seq<Byte>)
    ensures var buf := FromNetwork(Frame(cmd, ext, payload, true), true);
            && buf[0] == cmd && !HasResponseFlag(buf) && buf[HEADER_SIZE..] == ext + payload
            && (HostLength(buf) == |ext| + |payload| <==> |ext| + |payload| <= MAX_PAYLOAD)
  {
    var total := |payload| + |ext|;
    var length: Half := total % 0x1_0000;
    var header: seq<Byte> := [cmd, JSON, length % 0x100, length / 0x100];
    assert HostLength(header) == length;
    var n := Counted(length, true);
    assert Frame(cmd, ext, payload, true) == WithNetworkLength(header, n) + (ext + payload);
    hide HostLength, Counted, Uncounted, NetworkLength, WithNetworkLength, WithHostLength, Frame;
    LengthSurvives(total);
    HeaderSurvives(header, ext + payload, n);
    HostLengthSet(Frame(cmd, ext, payload, true), Uncounted(n, true));
  }

  // ----- Publishing (command PUBLISH_2: message type, source, number of targets, targets, data) -----

  function HalfBytes(n: Half): seq<Byte> {
    [n % 0x100, n / 0x100]
  }

  function HalfAt(bs: seq<Byte>, j: nat): Half
    requires j + 2 <= |bs|
  {
    bs[j] as int + 0x100 * bs[j + 1] as int
  }

  function PublishExtension(msgType: MessageId, source: EndpointId, targets: seq<EndpointId>): (r: seq<Byte>)
    ensures |r| == PUBLISH_SIZE + 4 * |targets|
  {
    HalfBytes(msgType) + EncodeWords([source]) + HalfBytes(|targets| % 0x1_0000) + EncodeWords(targets)
  }

  // The client's Publish: without targets and type the plain command, without an extension.
  method Publish(data: seq<Byte>, targets: seq<EndpointId>, msgType: MessageId, self: EndpointId, selfIncluded: bool)
    returns (sent: seq<Byte>)
    ensures sent == if targets == [] && msgType == 0 then Frame(PUBLISH, [], data, selfIncluded)
                    else Frame(PUBLISH_2, PublishExtension(msgType, self, targets), data, selfIncluded)
  {
    var cmd := PUBLISH;
    var bytes: seq<Byte> := [];
    if targets != [] || msgType > 0 {
      cmd := PUBLISH_2;
      bytes := bytes + HalfBytes(msgType) + EncodeWords([self]) + HalfBytes(|targets| % 0x1_0000);
      bytes := bytes + EncodeWords(targets);
    }
    sent := SendCommandMessage(cmd, data, bytes, selfIncluded);
  }

  // What the server reads of a decoded buffer.
  function MessageType(buf: seq<Byte>): MessageId
    requires |buf| >= HEADER_SIZE + PUBLISH_SIZE
  {
    HalfAt(buf, HEADER_SIZE)
  }

  function Source(buf: seq<Byte>): EndpointId
    requires |buf| >= HEADER_SIZE + PUBLISH_SIZE
  {
    WordAt(buf, HEADER_SIZE + 2)
  }

  function TargetCount(buf: seq<Byte>): Half
    requires |buf| >= HEADER_SIZE + PUBLISH_SIZE
  {
    HalfAt(buf, HEADER_SIZE + 6)
  }

  function TargetAt(buf: seq<Byte>, i: nat): EndpointId
    requires HEADER_SIZE + PUBLISH_SIZE + 4 * i + 4 <= |buf|
  {
    WordAt(buf, HEADER_SIZE + PUBLISH_SIZE + 4 * i)
  }

  // The buffer holds as many targets as it announces.
  predicate HoldsTargets(buf: seq<Byte>) {
    |buf| >= HEADER_SIZE + PUBLISH_SIZE && HEADER_SIZE + PUBLISH_SIZE + 4 * TargetCount(buf) <= |buf|
  }

  function Targets(buf: seq<Byte>): (r: seq<EndpointId>)
    requires HoldsTargets(buf)
    ensures |r| == TargetCount(buf)
  {
    seq(TargetCount(buf), i requires 0 <= i < TargetCount(buf) => TargetAt(buf, i))
  }

  lemma TargetsFit(buf: seq<Byte>)
    requires HoldsTargets(buf)
    ensures |buf| >= HEADER_SIZE + PUBLISH_SIZE && |buf| >= HEADER_SIZE && |buf| > 0
  {
  }

  method ReadTargets(buf: array<Byte>) returns (ids: seq<EndpointId>)
    requires HoldsTargets(buf[..])
    ensures ids == Targets(buf[..])
  {
    ids := [];
    for i := 0 to TargetCount(buf[..])
      invariant ids == Targets(buf[..])[..i]
    {
      ids := ids + [TargetAt(buf[..], i)];
    }
  }

  // Payload(): where the payload starts and its 16-bit length. The zero-length array `targets` has size 0, so the
  // targets are not dropped.
  function Payload(buf: seq<Byte>): (nat, Half)
    requires |buf| >= HEADER_SIZE
  {
    if buf[0] == PUBLISH_2 && !HasResponseFlag(buf) then
      (HEADER_SIZE + PUBLISH_SIZE, (HostLength(buf) - PUBLISH_SIZE) % 0x1_0000)
    else if buf[0] == SVC then
      (HEADER_SIZE + SERVICE_SIZE, (HostLength(buf) - SERVICE_SIZE) % 0x1_0000)
    else (HEADER_SIZE, HostLength(buf))
  }

  // What stands at an offset of the middle part.
  lemma WordFrom(before: seq<Byte>, middle: seq<Byte>, after: seq<Byte>, j: nat)
    requires j + 4 <= |middle|
    ensures WordAt(before + middle + after, |before| + j) == WordAt(middle, j)
  {
    hide Assemble;
  }

  lemma HalfFrom(before: seq<Byte>, middle: seq<Byte>, after: seq<Byte>, j: nat)
    requires j + 2 <= |middle|
    ensures HalfAt(before + middle + after, |before| + j) == HalfAt(middle, j)
  {
  }

  lemma HalfReadBack(n: Half)
    ensures HalfAt(HalfBytes(n), 0) == n
  {
  }

  lemma WordReadBack(words: seq<Word>, i: nat)
    requires i < |words|
    ensures WordAt(EncodeWords(words), 4 * i) == words[i]
  {
    EncodedAt(words, i, 0);
    EncodedAt(words, i, 1);
    EncodedAt(words, i, 2);
    EncodedAt(words, i, 3);
    AssembleOfBytes(words[i]);
    hide EncodeWords, ByteOf, Assemble;
  }

  // The four parts of the extension and the rest, at their offsets.
  lemma ExtensionParts(msgType: MessageId, source: EndpointId, targets: seq<EndpointId>, rest: seq<Byte>)
    requires |targets| < 0x1_0000
    ensures var body := PublishExtension(msgType, source, targets) + rest;
            var first, second, third, last := HalfBytes(msgType), EncodeWords([source]), HalfBytes(|targets|), EncodeWords(targets);
            && body == [] + first + (second + third + last + rest)
            && body == first + second + (third + last + rest)
            && body == (first + second) + third + (last + rest)
            && body == (first + second + third) + last + rest
            && body[PUBLISH_SIZE..] == last + rest
  {
    hide EncodeWords, HalfBytes;
    assert |HalfBytes(msgType)| == 2 && |HalfBytes(|targets|)| == 2 by { HalfLengths(msgType, |targets|); }
  }

  lemma HalfLengths(m: Half, n: Half)
    ensures |HalfBytes(m)| == 2 && |HalfBytes(n)| == 2
  {
  }

  lemma FixedRead(msgType: MessageId, source: EndpointId, targets: seq<EndpointId>, rest: seq<Byte>)
    requires |targets| < 0x1_0000
    ensures var body := PublishExtension(msgType, source, targets) + rest;
            && HalfAt(body, 0) == msgType && WordAt(body, 2) == source && HalfAt(body, 6) == |targets|
  {
    var first, second, third, last := HalfBytes(msgType), EncodeWords([source]), HalfBytes(|targets|), EncodeWords(targets);
    ExtensionParts(msgType, source, targets, rest);
    HalfReadBack(msgType);
    HalfReadBack(|targets|);
    WordReadBack([source], 0);
    hide EncodeWords, HalfBytes, WordAt, HalfAt, PublishExtension;
    HalfLengths(msgType, |targets|);
    HalfFrom([], first, second + third + last + rest, 0);
    WordFrom(first, second, third + last + rest, 0);
    HalfFrom(first + second, third, last + rest, 0);
  }

  lemma TargetRead(msgType: MessageId, source: EndpointId, targets: seq<EndpointId>, rest: seq<Byte>, i: nat)
    requires i < |targets| < 0x1_0000
    ensures WordAt(PublishExtension(msgType, source, targets) + rest, PUBLISH_SIZE + 4 * i) == targets[i]
  {
    var first, second, third, last := HalfBytes(msgType), EncodeWords([source]), HalfBytes(|targets|), EncodeWords(targets);
    ExtensionParts(msgType, source, targets, rest);
    WordReadBack(targets, i);
    HalfLengths(msgType, |targets|);
    hide EncodeWords, HalfBytes, WordAt, HalfAt, PublishExtension;
    WordFrom(first + second + third, last, rest, 4 * i);
  }

  // A received frame is its header and what follows.
  lemma Behind(buf: seq<Byte>, body: seq<Byte>)
    requires |buf| >= HEADER_SIZE && buf[HEADER_SIZE..] == body
    ensures buf == buf[..HEADER_SIZE] + body + [] && |buf[..HEADER_SIZE]| == HEADER_SIZE
    ensures |buf| == HEADER_SIZE + |body|
    ensures forall j | 0 <= j <= |body| :: buf[HEADER_SIZE + j..] == body[j..]
  {
  }

  // Reading behind the header of a received frame.
  lemma FixedBehind(buf: seq<Byte>, body: seq<Byte>)
    requires |buf| >= HEADER_SIZE + PUBLISH_SIZE && buf[HEADER_SIZE..] == body
    ensures MessageType(buf) == HalfAt(body, 0) && Source(buf) == WordAt(body, 2) && TargetCount(buf) == HalfAt(body, 6)
  {
    Behind(buf, body);
    hide HalfAt, WordAt;
    HalfFrom(buf[..HEADER_SIZE], body, [], 0);
    WordFrom(buf[..HEADER_SIZE], body, [], 2);
    HalfFrom(buf[..HEADER_SIZE], body, [], 6);
  }

  lemma TargetBehind(buf: seq<Byte>, body: seq<Byte>, i: nat)
    requires |buf| >= HEADER_SIZE && buf[HEADER_SIZE..] == body && PUBLISH_SIZE + 4 * i + 4 <= |body|
    ensures TargetAt(buf, i) == WordAt(body, PUBLISH_SIZE + 4 * i)
  {
    Behind(buf, body);
    hide WordAt;
    WordFrom(buf[..HEADER_SIZE], body, [], PUBLISH_SIZE + 4 * i);
  }

  /** Whatever the data, the server reads back the type, source, count and targets that the client wrote. */
  lemma PublishRoundTrip(msgType: MessageId, source: EndpointId, targets: seq<EndpointId>, data: seq<Byte>)
    requires PUBLISH_SIZE + 4 * |targets| + |data| <= MAX_PAYLOAD
    ensures var buf := FromNetwork(Frame(PUBLISH_2, PublishExtension(msgType, source, targets), data, true), true);
            && buf[0] == PUBLISH_2 && |buf| == HEADER_SIZE + HostLength(buf)
            && MessageType(buf) == msgType && Source(buf) == source && TargetCount(buf) == |targets|
            && forall i | 0 <= i < |targets| :: TargetAt(buf, i) == targets[i]
  {
    var ext := PublishExtension(msgType, source, targets);
    var buf := FromNetwork(Frame(PUBLISH_2, ext, data, true), true);
    FrameReceived(PUBLISH_2, ext, data);
    hide FromNetwork, Frame, PublishExtension, HasResponseFlag, HostLength, MessageType, Source, TargetCount, TargetAt;
    hide HalfAt, WordAt;
    FixedBehind(buf, ext + data);
    FixedRead(msgType, source, targets, data);
    forall i | 0 <= i < |targets| ensures TargetAt(buf, i) == targets[i] {
      TargetRead(msgType, source, targets, data, i);
      TargetBehind(buf, ext + data, i);
    }
  }

  /** The payload the server is shown is the targets followed by the data: the data alone exactly when there are no
      targets. */
  lemma PayloadKeepsTargets(msgType: MessageId, source: EndpointId, targets: seq<EndpointId>, data: seq<Byte>)
    requires PUBLISH_SIZE + 4 * |targets| + |data| <= MAX_PAYLOAD
    ensures var buf := FromNetwork(Frame(PUBLISH_2, PublishExtension(msgType, source, targets), data, true), true);
            var (start, length) := Payload(buf);
            && start + length == |buf| && buf[start..] == EncodeWords(targets) + data
            && (buf[start..] == data <==> targets == [])
  {
    var ext := PublishExtension(msgType, source, targets);
    var buf := FromNetwork(Frame(PUBLISH_2, ext, data, true), true);
    FrameReceived(PUBLISH_2, ext, data);
    ExtensionParts(msgType, source, targets, data);
    hide FromNetwork, Frame, PublishExtension, EncodeWords, HasResponseFlag;
    Behind(buf, ext + data);
    assert buf[HEADER_SIZE + PUBLISH_SIZE..] == (ext + data)[PUBLISH_SIZE..];
    if targets == [] {
      assert EncodeWords(targets) + data == data;
    } else {
      assert |EncodeWords(targets) + data| > |data|;
    }
  }

  // The buffer holds what the server reads of its command.
  predicate Complete(buf: seq<Byte>) {
    && |buf| >= HEADER_SIZE
    && (buf[0] == PUBLISH_2 ==> HoldsTargets(buf))
    && (buf[0] == SVC ==> |buf| >= HEADER_SIZE + SERVICE_SIZE)
  }

  // ----- Services (command SVC: type, command, session, source, then data or a result) -----

  function ServiceBytes(h: ServiceHeader): (r: seq<Byte>)
    ensures |r| == SERVICE_SIZE
  {
    [h.svcType] + HalfBytes(h.svcCmd) + EncodeWords([h.session, h.source])
  }

  function ServiceHeaderAt(bs: seq<Byte>, j: nat): ServiceHeader
    requires j + SERVICE_SIZE <= |bs|
  {
    ServiceHeader(bs[j], HalfAt(bs, j + 1), WordAt(bs, j + 3), WordAt(bs, j + 7))
  }

  // The client's RequestService; `drawn` is the random session id taken when none is given.
  method RequestService(data: seq<Byte>, svcType: ServiceType, svcCmd: MessageId, session: SessionId, drawn: SessionId,
                        self: EndpointId, selfIncluded: bool)
    returns (sent: seq<Byte>)
    ensures sent == Frame(SVC, ServiceBytes(ServiceHeader(svcType, svcCmd, if session > 0 then session else drawn, self)),
                          data, selfIncluded)
  {
    var id := drawn;
    if session > 0 {
      id := session;
    }
    sent := SendCommandMessage(SVC, data, ServiceBytes(ServiceHeader(svcType, svcCmd, id, self)), selfIncluded);
  }

  // The reply to a decoded request: its own header with the response flag and a new length, its own service header,
  // the error code, the text. A service's answer and the server's error reply have the same form.
  function ServiceReply(request: seq<Byte>, errcode: Byte, text: seq<Byte>, selfIncluded: bool): (r: seq<Byte>)
    requires |request| >= HEADER_SIZE + SERVICE_SIZE
    ensures |r| == HEADER_SIZE + SERVICE_SIZE + RESULT_SIZE + |text|
  {
    var length: Half := (SERVICE_SIZE + RESULT_SIZE + |text|) % 0x1_0000;
    ToNetwork(WithHostLength(WithResponseFlag(request[..HEADER_SIZE]), length), selfIncluded)
    + request[HEADER_SIZE..HEADER_SIZE + SERVICE_SIZE] + [errcode] + text
  }

  // The text of the server's refusal.
  const NO_SERVICE: seq<Byte> := Ascii("Can not find service or request is not allowed")

  function Ascii(text: string): seq<Byte> {
    seq(|text|, i requires 0 <= i < |text| => text[i] as int % 0x100)
  }

  // HandleServiceRequest of the client, and lines 419-432 of the server's: the header is rewritten in the buffer.
  method Reply(request: array<Byte>, errcode: Byte, text: seq<Byte>, selfIncluded: bool) returns (sent: seq<Byte>)
    requires request.Length >= HEADER_SIZE + SERVICE_SIZE
    modifies request
    ensures sent == ServiceReply(old(request[..]), errcode, text, selfIncluded)
    ensures request[HEADER_SIZE..] == old(request[HEADER_SIZE..])
  {
    ghost var was := request[..];
    request[1] := 0x80 + request[1] % 0x80;
    var length: Half := (SERVICE_SIZE + RESULT_SIZE + |text|) % 0x1_0000;
    request[2], request[3] := length % 0x100, length / 0x100;
    ghost var readied := request[..];
    assert readied[..HEADER_SIZE] == WithHostLength(WithResponseFlag(was[..HEADER_SIZE]), length);
    ConvertToNetworkMessage(request, selfIncluded);
    HeaderAlone(readied, selfIncluded);
    sent := request[..HEADER_SIZE] + request[HEADER_SIZE..HEADER_SIZE + SERVICE_SIZE];
    sent := sent + [errcode];
    sent := sent + text;
  }

  // Converting a frame converts its header and touches nothing else.
  lemma HeaderAlone(buf: seq<Byte>, selfIncluded: bool)
    requires |buf| >= HEADER_SIZE
    ensures ToNetwork(buf, selfIncluded)[..HEADER_SIZE] == ToNetwork(buf[..HEADER_SIZE], selfIncluded)
    ensures ToNetwork(buf, selfIncluded)[HEADER_SIZE..] == buf[HEADER_SIZE..]
  {
  }

  lemma ServiceParts(h: ServiceHeader)
    ensures ServiceHeaderAt(ServiceBytes(h), 0) == h
  {
    var words := EncodeWords([h.session, h.source]);
    HalfReadBack(h.svcCmd);
    WordReadBack([h.session, h.source], 0);
    WordReadBack([h.session, h.source], 1);
    hide EncodeWords, HalfBytes, WordAt, HalfAt;
    HalfLengths(h.svcCmd, 0);
    assert ServiceBytes(h) == [h.svcType] + HalfBytes(h.svcCmd) + words;
    HalfFrom([h.svcType], HalfBytes(h.svcCmd), words, 0);
    WordFrom([h.svcType] + HalfBytes(h.svcCmd), words, [], 0);
    WordFrom([h.svcType] + HalfBytes(h.svcCmd), words, [], 4);
    assert [h.svcType] + HalfBytes(h.svcCmd) + words + [] == ServiceBytes(h);
  }

  lemma HeaderFrom(before: seq<Byte>, middle: seq<Byte>, after: seq<Byte>)
    requires |middle| == SERVICE_SIZE
    ensures ServiceHeaderAt(before + middle + after, |before|) == ServiceHeaderAt(middle, 0)
  {
    HalfFrom(before, middle, after, 1);
    WordFrom(before, middle, after, 3);
    WordFrom(before, middle, after, 7);
    hide WordAt, HalfAt;
  }

  lemma Parted(buf: seq<Byte>, middle: seq<Byte>, rest: seq<Byte>)
    requires |buf| >= HEADER_SIZE && buf[HEADER_SIZE..] == middle + rest
    ensures buf == buf[..HEADER_SIZE] + middle + rest && |buf[..HEADER_SIZE]| == HEADER_SIZE
    ensures buf[HEADER_SIZE + |middle|..] == rest
  {
    assert buf == buf[..HEADER_SIZE] + buf[HEADER_SIZE..];
    assert buf[HEADER_SIZE + |middle|..] == buf[HEADER_SIZE..][|middle|..];
  }

  /** The server and the service read the service header that the requester wrote, and the request's data. */
  lemma RequestRoundTrip(h: ServiceHeader, data: seq<Byte>)
    requires SERVICE_SIZE + |data| <= MAX_PAYLOAD
    ensures var buf := FromNetwork(Frame(SVC, ServiceBytes(h), data, true), true);
            && buf[0] == SVC && !HasResponseFlag(buf) && ServiceHeaderAt(buf, HEADER_SIZE) == h
            && Payload(buf) == (HEADER_SIZE + SERVICE_SIZE, |data|) && buf[HEADER_SIZE + SERVICE_SIZE..] == data
  {
    var buf := FromNetwork(Frame(SVC, ServiceBytes(h), data, true), true);
    FrameReceived(SVC, ServiceBytes(h), data);
    ServiceParts(h);
    hide FromNetwork, Frame, ServiceBytes, HasResponseFlag, ServiceHeaderAt, HostLength;
    Parted(buf, ServiceBytes(h), data);
    HeaderFrom(buf[..HEADER_SIZE], ServiceBytes(h), data);
  }

  // The header of a reply, after it was received.
  lemma ReplyHeader(request: seq<Byte>, errcode: Byte, text: seq<Byte>)
    requires |request| >= HEADER_SIZE + SERVICE_SIZE
    ensures var reply := FromNetwork(ServiceReply(request, errcode, text, true), true);
            var total := SERVICE_SIZE + RESULT_SIZE + |text|;
            && reply[0] == request[0] && HasResponseFlag(reply)
            && (HostLength(reply) == total <==> total <= MAX_PAYLOAD)
            && reply[HEADER_SIZE..] == request[HEADER_SIZE..HEADER_SIZE + SERVICE_SIZE] + [errcode] + text
  {
    var length: Half := (SERVICE_SIZE + RESULT_SIZE + |text|) % 0x1_0000;
    var header := WithHostLength(WithResponseFlag(request[..HEADER_SIZE]), length);
    LengthsWritten(WithResponseFlag(request[..HEADER_SIZE]), length);
    var n := Counted(length, true);
    LengthsWritten(header, n);
    var sent := ServiceReply(request, errcode, text, true);
    assert sent[..HEADER_SIZE] == WithNetworkLength(header, n);
    assert NetworkLength(sent) == n;
    LengthsWritten(sent, Uncounted(n, true));
  }

  /** A reply comes back with the service header of its request, untouched, and the requester finds the error code and
      the text where it looks for them. */
  lemma ReplyRoundTrip(request: seq<Byte>, errcode: Byte, text: seq<Byte>)
    requires |request| >= HEADER_SIZE + SERVICE_SIZE && request[0] == SVC
    requires SERVICE_SIZE + RESULT_SIZE + |text| <= MAX_PAYLOAD
    ensures var reply := FromNetwork(ServiceReply(request, errcode, text, true), true);
            && reply[0] == SVC && HasResponseFlag(reply)
            && ServiceHeaderAt(reply, HEADER_SIZE) == ServiceHeaderAt(request, HEADER_SIZE)
            && Payload(reply) == (HEADER_SIZE + SERVICE_SIZE, RESULT_SIZE + |text|)
            && reply[HEADER_SIZE + SERVICE_SIZE] == errcode && reply[HEADER_SIZE + SERVICE_SIZE + RESULT_SIZE..] == text
  {
    var reply := FromNetwork(ServiceReply(request, errcode, text, true), true);
    ReplyHeader(request, errcode, text);
    hide FromNetwork, ServiceReply, HasResponseFlag, ServiceHeaderAt;
    var middle := request[HEADER_SIZE..HEADER_SIZE + SERVICE_SIZE];
    assert reply == reply[..HEADER_SIZE] + middle + ([errcode] + text);
    HeaderFrom(reply[..HEADER_SIZE], middle, [errcode] + text);
    assert request == request[..HEADER_SIZE] + middle + request[HEADER_SIZE + SERVICE_SIZE..];
    HeaderFrom(request[..HEADER_SIZE], middle, request[HEADER_SIZE + SERVICE_SIZE..]);
  }

  // ----- The bytes on the wire -----

  lemma HeaderSent(header: seq<Byte>, n: Half)
    requires |header| == HEADER_SIZE && n + 2 < 0x1_0000 && header[2] as int + 0x100 * header[3] as int == n
    ensures var sent := ToNetwork(header, true);
            && sent[0] == header[0] && sent[1] == header[1]
            && 0x100 * sent[2] as int + sent[3] as int == if n == 0 then 0 else n + 2
  {
  }

  lemma FrameIs(cmd: Byte, ext: seq<Byte>, payload: seq<Byte>, n: Half)
    requires n == |ext| + |payload|
    ensures Frame(cmd, ext, payload, true) == ToNetwork([cmd, JSON, n % 0x100, n / 0x100], true) + (ext + payload)
  {
    assert (|payload| + |ext|) % 0x1_0000 == n;
    hide ToNetwork;
  }

  lemma SplitAndJoined(n: Half)
    ensures n % 0x100 + 0x100 * (n / 0x100) == n
  {
  }

  /** A frame is the command, the flags with bit 5 for JSON and bit 7 clear, the length in network order and counting its
      own two bytes unless there is nothing to count, and the rest. */
  lemma FrameBytes(cmd: Byte, ext: seq<Byte>, payload: seq<Byte>)
    requires |ext| + |payload| <= MAX_PAYLOAD
    ensures var f, n := Frame(cmd, ext, payload, true), |ext| + |payload|;
            && |f| == 4 + n && f[0] == cmd && f[1] == 0x20
            && 0x100 * f[2] as int + f[3] as int == (if n == 0 then 0 else n + 2)
            && f[4..] == ext + payload
  {
    var n: Half := |ext| + |payload|;
    var lo: Byte, hi: Byte := n % 0x100, n / 0x100;
    SplitAndJoined(n);
    FrameIs(cmd, ext, payload, n);
    HeaderSent([cmd, JSON, lo, hi], n);
    hide ToNetwork, Frame;
  }

  lemma HalfBytesAre(n: Half)
    ensures HalfBytes(n)[0] as int + 0x100 * HalfBytes(n)[1] as int == n
  {
  }

  lemma HalfAtIs(bs: seq<Byte>, j: nat)
    requires j + 2 <= |bs|
    ensures HalfAt(bs, j) == bs[j] as int + 0x100 * bs[j + 1] as int
  {
  }

  lemma WordAtIs(bs: seq<Byte>, j: nat)
    requires j + 4 <= |bs|
    ensures WordAt(bs, j)
            == bs[j] as int + 0x100 * bs[j + 1] as int + 0x1_0000 * bs[j + 2] as int + 0x100_0000 * bs[j + 3] as int
  {
  }

  /** The frame of a publish with a type or targets: command 10, then in the host's order the type at offset 4, the source at
      6, the number of targets at 10, the targets from 12 on, and the data behind them. */
  lemma PublishLayout(msgType: MessageId, source: EndpointId, targets: seq<EndpointId>, data: seq<Byte>)
    requires PUBLISH_SIZE + 4 * |targets| + |data| <= MAX_PAYLOAD
    ensures var f := Frame(PUBLISH_2, PublishExtension(msgType, source, targets), data, true);
            && |f| == 12 + 4 * |targets| + |data| && f[0] == 10
            && f[4] as int + 0x100 * f[5] as int == msgType
            && f[6] as int + 0x100 * f[7] as int + 0x1_0000 * f[8] as int + 0x100_0000 * f[9] as int == source
            && f[10] as int + 0x100 * f[11] as int == |targets|
            && (forall i | 0 <= i < |targets| ::
                  targets[i] == f[12 + 4 * i] as int + 0x100 * f[13 + 4 * i] as int + 0x1_0000 * f[14 + 4 * i] as int
                                + 0x100_0000 * f[15 + 4 * i] as int)
            && f[12 + 4 * |targets|..] == data
  {
    var ext := PublishExtension(msgType, source, targets);
    var f := Frame(PUBLISH_2, ext, data, true);
    var body := ext + data;
    FrameBytes(PUBLISH_2, ext, data);
    FixedRead(msgType, source, targets, data);
    hide Frame, PublishExtension, HalfAt, WordAt;
    assert f[4..] == body;
    HalfAtIs(body, 0);
    WordAtIs(body, 2);
    HalfAtIs(body, 6);
    assert forall j | 0 <= j < |body| :: f[4 + j] == body[j];
    forall i | 0 <= i < |targets|
      ensures targets[i] == f[12 + 4 * i] as int + 0x100 * f[13 + 4 * i] as int + 0x1_0000 * f[14 + 4 * i] as int
                            + 0x100_0000 * f[15 + 4 * i] as int
    {
      TargetRead(msgType, source, targets, data, i);
      WordAtIs(body, PUBLISH_SIZE + 4 * i);
      BehindHeader(f, body, 8 + 4 * i);
    }
    assert f[12 + 4 * |targets|..] == f[4..][8 + 4 * |targets|..];
    assert body[8 + 4 * |targets|..] == data;
  }

  lemma BehindHeader(f: seq<Byte>, body: seq<Byte>, j: nat)
    requires |f| >= 4 && f[4..] == body && j + 4 <= |body|
    ensures f[4 + j] == body[j] && f[5 + j] == body[j + 1] && f[6 + j] == body[j + 2] && f[7 + j] == body[j + 3]
  {
  }

  /** A plain publish: command 9 and the data. */
  lemma PlainLayout(data: seq<Byte>)
    requires |data| <= MAX_PAYLOAD
    ensures var f := Frame(PUBLISH, [], data, true); f[0] == 9 && f[4..] == data
  {
    FrameBytes(PUBLISH, [], data);
    assert [] + data == data;
  }

  /** A service request: command 11, then the type at offset 4, in the host's order the command at 5, the session at 7 and
      the source at 11, and the data from 15 on. */
  lemma ServiceLayout(h: ServiceHeader, data: seq<Byte>)
    requires SERVICE_SIZE + |data| <= MAX_PAYLOAD
    ensures var f := Frame(SVC, ServiceBytes(h), data, true);
            && |f| == 15 + |data| && f[0] == 11 && f[4] == h.svcType
            && f[5] as int + 0x100 * f[6] as int == h.svcCmd
            && f[7] as int + 0x100 * f[8] as int + 0x1_0000 * f[9] as int + 0x100_0000 * f[10] as int == h.session
            && f[11] as int + 0x100 * f[12] as int + 0x1_0000 * f[13] as int + 0x100_0000 * f[14] as int == h.source
            && f[15..] == data
  {
    var bs := ServiceBytes(h);
    var f := Frame(SVC, bs, data, true);
    FrameBytes(SVC, bs, data);
    ServiceParts(h);
    hide Frame, ServiceBytes, HalfAt, WordAt;
    HalfAtIs(bs, 1);
    WordAtIs(bs, 3);
    WordAtIs(bs, 7);
    assert forall j | 0 <= j < 11 :: f[4 + j] == bs[j];
    assert f[15..] == f[4..][11..] && (bs + data)[11..] == data;
  }

  /** What is read of a decoded service message stands at the same offsets. */
  lemma ServiceHeaderRead(buf: seq<Byte>)
    requires |buf| >= HEADER_SIZE + SERVICE_SIZE
    ensures var h := ServiceHeaderAt(buf, HEADER_SIZE);
            && h.svcType == buf[4] && h.svcCmd == buf[5] as int + 0x100 * buf[6] as int
            && h.session == buf[7] as int + 0x100 * buf[8] as int + 0x1_0000 * buf[9] as int + 0x100_0000 * buf[10] as int
            && h.source == buf[11] as int + 0x100 * buf[12] as int + 0x1_0000 * buf[13] as int + 0x100_0000 * buf[14] as int
  {
    HalfAtIs(buf, 5);
    WordAtIs(buf, 7);
    WordAtIs(buf, 11);
    hide HalfAt, WordAt;
  }

  /** The response flag is the top bit of the flag byte; setting it leaves the others. */
  lemma ResponseBit(buf: seq<Byte>)
    requires |buf| >= HEADER_SIZE
    ensures HasResponseFlag(buf) <==> buf[1] >= 128
    ensures WithResponseFlag(buf) == buf[1 := if buf[1] >= 128 then buf[1] else buf[1] + 128]
  {
  }

  /** The payload of any other command is everything behind the header; so is that of the answer to a publish. */
  lemma PlainPayload(cmd: Byte, payload: seq<Byte>)
    requires |payload| <= MAX_PAYLOAD && cmd != 10 && cmd != 11
    ensures var buf := FromNetwork(Frame(cmd, [], payload, true), true);
            && Payload(buf) == (4, |payload|) && |buf| == 4 + |payload| && buf[4..] == payload
  {
    FrameReceived(cmd, [], payload);
    assert [] + payload == payload;
    hide FromNetwork, Frame, HasResponseFlag, HostLength;
  }

  lemma ResponsePayload(buf: seq<Byte>)
    requires |buf| >= HEADER_SIZE && buf[0] == 10 && buf[1] >= 128
    ensures Payload(buf) == (4, HostLength(buf))
  {
    ResponseBit(buf);
    hide HasResponseFlag, HostLength;
  }
}
