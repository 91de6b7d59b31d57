/** The client library's half of the protocols: what its frames make the server do. */
module ClientProtocol {
  import opened SwitchTypes
  import opened Entities
  import opened Registry
  import opened Routing
  import opened Wire
  import opened CommandHandler
  import opened Services

  // ----- Publishing -----

  // The frame of a publish with a type or targets, as the server decodes it.
  function PublishReceived(msgType: MessageId, source: EndpointId, targets: seq<EndpointId>, data: seq<Byte>): seq<Byte>
    requires PUBLISH_SIZE + 4 * |targets| + |data| <= MAX_PAYLOAD
  {
    FromNetwork(Frame(PUBLISH_2, PublishExtension(msgType, source, targets), data, true), true)
  }

  lemma FrameLength(msgType: MessageId, source: EndpointId, targets: seq<EndpointId>, data: seq<Byte>)
    requires PUBLISH_SIZE + 4 * |targets| + |data| <= MAX_PAYLOAD
    ensures |PublishReceived(msgType, source, targets, data)|
            == HEADER_SIZE + PUBLISH_SIZE + 4 * |targets| + |data|
  {
    hide FromNetwork, Frame, PublishExtension;
  }

  lemma TargetsOf(buf: seq<Byte>, targets: seq<EndpointId>)
    requires |buf| >= HEADER_SIZE + PUBLISH_SIZE + 4 * |targets| && TargetCount(buf) == |targets|
    requires forall i | 0 <= i < |targets| :: TargetAt(buf, i) == targets[i]
    ensures HoldsTargets(buf) && Targets(buf) == targets
  {
    hide TargetCount, TargetAt;
  }

  /** A client's publish is complete, and the server sends it to the targets that the client named, with the client's type. */
  lemma PublishUnderstood(s: State, e: Endpoint, msgType: MessageId, source: EndpointId, targets: seq<EndpointId>,
                          data: seq<Byte>)
    requires WellFormed(s) && e in s.store && PUBLISH_SIZE + 4 * |targets| + |data| <= MAX_PAYLOAD
    ensures var buf := PublishReceived(msgType, source, targets, data);
            && Complete(buf) && HoldsTargets(buf)
            && Receivers(s, e, buf)
               == if targets != [] then ExplicitTargets(s, e, msgType, targets)
                  else if s.subscribers != map[] then TypedTargets(s, e, msgType)
                  else PlainTargets(s, e)
  {
    hide WellFormed, PlainTargets, TypedTargets, ExplicitTargets, TargetCount, TargetAt, MessageType, Source, Targets,
      HostLength, PublishExtension, Frame, FromNetwork;
    PublishRoundTrip(msgType, source, targets, data);
    FrameLength(msgType, source, targets, data);
    TargetsOf(PublishReceived(msgType, source, targets, data), targets);
  }

  // ----- Services -----

  lemma SvcComplete(buf: seq<Byte>)
    requires |buf| >= HEADER_SIZE + SERVICE_SIZE && buf[0] == SVC
    ensures Complete(buf)
  {
  }

  /** A client's request announces a service request with exactly the header that the client wrote. */
  lemma RequestAnnounces(s: State, c: Connection, e: Endpoint, h: ServiceHeader, data: seq<Byte>, ev: Event)
    requires WellFormed(s) && e in s.store && SERVICE_SIZE + |data| <= MAX_PAYLOAD
    ensures var buf := FromNetwork(Frame(SVC, ServiceBytes(h), data, true), true);
            Complete(buf) && (Announces(s, c, e, buf, ev) ==> ev.ServiceRequest? && ev.c == c && ev.header == h)
  {
    hide WellFormed, Selectable, ServiceHeaderAt, HasResponseFlag, Payload, Frame, FromNetwork, ServiceBytes;
    RequestRoundTrip(h, data);
    SvcComplete(FromNetwork(Frame(SVC, ServiceBytes(h), data, true), true));
  }

  // The bytes of the service header, whatever stands in the length field.
  lemma HeaderBehind(p: seq<Byte>, q: seq<Byte>)
    requires |p| == |q| >= HEADER_SIZE + SERVICE_SIZE && p[HEADER_SIZE..] == q[HEADER_SIZE..]
    ensures ServiceHeaderAt(p, HEADER_SIZE) == ServiceHeaderAt(q, HEADER_SIZE)
  {
    var body := p[HEADER_SIZE..];
    assert p == p[..HEADER_SIZE] + body[..SERVICE_SIZE] + body[SERVICE_SIZE..];
    assert q == q[..HEADER_SIZE] + body[..SERVICE_SIZE] + body[SERVICE_SIZE..];
    hide ServiceHeaderAt;
    HeaderFrom(p[..HEADER_SIZE], body[..SERVICE_SIZE], body[SERVICE_SIZE..]);
    HeaderFrom(q[..HEADER_SIZE], body[..SERVICE_SIZE], body[SERVICE_SIZE..]);
  }

  lemma PassedOn(buf: seq<Byte>)
    requires |buf| >= HEADER_SIZE
    ensures var passed := FromNetwork(ToNetwork(buf, true), true);
            |passed| == |buf| && passed[HEADER_SIZE..] == buf[HEADER_SIZE..] && passed[0] == buf[0] && passed[1] == buf[1]
  {
  }

  /** Whatever the service answers to the request that was passed on to it, the server sees a response with the header of
      that request: services written with the client library echo as the correlation of responses requires. */
  lemma ReplyAnnounces(s: State, c: Connection, e: Endpoint, request: seq<Byte>, errcode: Byte, text: seq<Byte>, ev: Event)
    requires WellFormed(s) && e in s.store
    requires |request| >= HEADER_SIZE + SERVICE_SIZE && request[0] == SVC
    requires SERVICE_SIZE + RESULT_SIZE + |text| <= MAX_PAYLOAD
    ensures var passed := FromNetwork(ToNetwork(request, true), true);
            var buf := FromNetwork(ServiceReply(passed, errcode, text, true), true);
            && Complete(buf)
            && (Announces(s, c, e, buf, ev) <==> ev == ServiceResponse(c, ServiceHeaderAt(request, HEADER_SIZE)))
  {
    var passed := FromNetwork(ToNetwork(request, true), true);
    PassedOn(request);
    hide WellFormed, Selectable, ServiceHeaderAt, HasResponseFlag, Payload, ServiceReply, FromNetwork, ToNetwork;
    HeaderBehind(passed, request);
    ReplyRoundTrip(passed, errcode, text);
    SvcComplete(FromNetwork(ServiceReply(passed, errcode, text, true), true));
  }
}
