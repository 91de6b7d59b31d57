/** Connections and endpoints: the two objects the switch shares between its indexes. */
module Entities {
  import opened SwitchTypes

  datatype Role = Undefined | Normal | Admin | Service

  // What the switch uses of a TCP connection: its descriptor and the id it carries.
  class Connection {
    const fd: Fd
    var id: EndpointId

    constructor (fd: Fd, id: EndpointId)
      ensures this.fd == fd && this.id == id
    {
      this.fd, this.id := fd, id;
    }

    method SetID(id: EndpointId)
      modifies this
      ensures this.id == id
    {
      this.id := id;
    }
  }

  // The fields of an endpoint.
  datatype Record = Record(role: Role, token: string, conn: Connection, svcType: ServiceType,
                           fwdTargets: set<EndpointId>,
                           subsSources: set<EndpointId>, rejSources: set<EndpointId>,
                           subsMessages: set<MessageId>, rejMessages: set<MessageId>)

  // ----- The filter commands an endpoint can send -----

  datatype FilterCommand =
    | Forward(targets: seq<EndpointId>)
    | Unforward(targets: seq<EndpointId>)
    | Subscribe(sources: seq<EndpointId>, messages: seq<MessageId>)
    | Unsubscribe(sources: seq<EndpointId>, messages: seq<MessageId>)
    | Reject(sources: seq<EndpointId>, messages: seq<MessageId>)
    | Unreject(sources: seq<EndpointId>, messages: seq<MessageId>)
  {
    // Such a command is refused and changes nothing.
    predicate NamesNothing() {
      if Forward? || Unforward? then targets == [] else sources == [] && messages == []
    }
  }

  function Applied(r: Record, cmd: FilterCommand): Record {
    match cmd
    case Forward(targets) => r.(fwdTargets := r.fwdTargets + Elements(targets))
    case Unforward(targets) => r.(fwdTargets := r.fwdTargets - Elements(targets))
    case Subscribe(sources, messages) =>
      r.(subsSources := r.subsSources + Elements(sources), subsMessages := r.subsMessages + Elements(messages))
    case Unsubscribe(sources, messages) =>
      r.(subsSources := r.subsSources - Elements(sources), subsMessages := r.subsMessages - Elements(messages))
    case Reject(sources, messages) =>
      r.(rejSources := r.rejSources + Elements(sources), rejMessages := r.rejMessages + Elements(messages))
    case Unreject(sources, messages) =>
      r.(rejSources := r.rejSources - Elements(sources), rejMessages := r.rejMessages - Elements(messages))
  }

  class Endpoint {
    var role: Role
    var token: string
    var conn: Connection
    var svcType: ServiceType
    var fwdTargets: set<EndpointId>
    var subsSources: set<EndpointId>
    var rejSources: set<EndpointId>
    var subsMessages: set<MessageId>
    var rejMessages: set<MessageId>

    function View(): Record
      reads this
    {
      Record(role, token, conn, svcType, fwdTargets, subsSources, rejSources, subsMessages, rejMessages)
    }

    // The id is written to the connection, and read back from it.
    constructor (id: EndpointId, conn: Connection)
      modifies conn
      ensures View() == Record(Undefined, "", conn, 0, {}, {}, {}, {}, {})
      ensures conn.id == id
    {
      role, token, this.conn, svcType := Undefined, "", conn, 0;
      fwdTargets, subsSources, rejSources, subsMessages, rejMessages := {}, {}, {}, {}, {};
      new;
      conn.SetID(id);
    }

    function Id(): EndpointId
      reads this, conn
    {
      conn.id
    }

    method SetForwardTargets(targets: seq<EndpointId>)
      modifies this
      ensures View() == Applied(old(View()), Forward(targets))
    {
      fwdTargets := fwdTargets + Elements(targets);
    }

    method UnsetForwardTargets(targets: seq<EndpointId>)
      modifies this
      ensures View() == Applied(old(View()), Unforward(targets))
    {
      for k := 0 to |targets|
        invariant View() == Applied(old(View()), Unforward(targets[..k]))
      {
        fwdTargets := fwdTargets - {targets[k]};
      }
      assert targets[..|targets|] == targets;
    }

    method SubscribeSources(sources: seq<EndpointId>)
      modifies this
      ensures View() == Applied(old(View()), Subscribe(sources, []))
    {
      subsSources := subsSources + Elements(sources);
    }

    method UnsubscribeSources(sources: seq<EndpointId>)
      modifies this
      ensures View() == Applied(old(View()), Unsubscribe(sources, []))
    {
      for k := 0 to |sources|
        invariant View() == Applied(old(View()), Unsubscribe(sources[..k], []))
      {
        subsSources := subsSources - {sources[k]};
      }
      assert sources[..|sources|] == sources;
    }

    method RejectSources(sources: seq<EndpointId>)
      modifies this
      ensures View() == Applied(old(View()), Reject(sources, []))
    {
      rejSources := rejSources + Elements(sources);
    }

    method UnrejectSources(sources: seq<EndpointId>)
      modifies this
      ensures View() == Applied(old(View()), Unreject(sources, []))
    {
      for k := 0 to |sources|
        invariant View() == Applied(old(View()), Unreject(sources[..k], []))
      {
        rejSources := rejSources - {sources[k]};
      }
      assert sources[..|sources|] == sources;
    }

    method SubscribeMessages(messages: seq<MessageId>)
      modifies this
      ensures View() == Applied(old(View()), Subscribe([], messages))
    {
      subsMessages := subsMessages + Elements(messages);
    }

    method UnsubscribeMessages(messages: seq<MessageId>)
      modifies this
      ensures View() == Applied(old(View()), Unsubscribe([], messages))
    {
      for k := 0 to |messages|
        invariant View() == Applied(old(View()), Unsubscribe([], messages[..k]))
      {
        subsMessages := subsMessages - {messages[k]};
      }
      assert messages[..|messages|] == messages;
    }

    method RejectMessages(messages: seq<MessageId>)
      modifies this
      ensures View() == Applied(old(View()), Reject([], messages))
    {
      rejMessages := rejMessages + Elements(messages);
    }

    method UnrejectMessages(messages: seq<MessageId>)
      modifies this
      ensures View() == Applied(old(View()), Unreject([], messages))
    {
      for k := 0 to |messages|
        invariant View() == Applied(old(View()), Unreject([], messages[..k]))
      {
        rejMessages := rejMessages - {messages[k]};
      }
      assert messages[..|messages|] == messages;
    }

    // A whitelist refuses what it does not name, unless it is empty.
    predicate IsSubscribedSource(source: EndpointId)
      reads this
    {
      if subsSources != {} then source in subsSources else true
    }

    predicate IsRejectedSource(source: EndpointId)
      reads this
    {
      if rejSources != {} then source in rejSources else false
    }

    predicate IsSubscribedMessage(message: MessageId)
      reads this
    {
      if subsMessages != {} then message in subsMessages else true
    }

    predicate IsRejectedMessage(message: MessageId)
      reads this
    {
      if rejMessages != {} then message in rejMessages else false
    }
  }
}
