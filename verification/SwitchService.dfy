/** What the commands do to the registry: `SwitchService`, updating the context in place. */
module SwitchService {
  import opened SwitchTypes
  import opened Entities
  import opened Registry
  import opened Context
  import opened Network
  import opened Runs
  import opened Routing
  import opened Statistics
  import Filters

  // `token` is empty when the registration gave no new one, `role` is 0 when it did not switch the role.
  datatype RegisterResult = Refused | Registered(id: EndpointId, token: string, role: Byte)

  // What a registration reports.
  ghost function Reported(s: State, c: Connection, cmd: RegisterCommand, id: EndpointId, token: string): RegisterResult
    requires WellFormed(s)
  {
    if !Accepted(s, c, cmd, id) then Refused
    else if id !in s.endpoints then Registered(id, token, 0)
    else
      var was, role := s.store[s.endpoints[id]], RoleOf(cmd.role);
      Registered(id, if TokenMatches(s, s.endpoints[id], cmd) || role != was.role then token else "",
                 if role != was.role then cmd.role else 0)
  }

  // Whom an accepted registration from another descriptor kicks out.
  ghost function Kicked(s: State, c: Connection, cmd: RegisterCommand, id: EndpointId): seq<Effect>
    requires WellFormed(s)
  {
    if Accepted(s, c, cmd, id) && id in s.endpoints && s.store[s.endpoints[id]].conn.fd != c.fd
    then var was := s.store[s.endpoints[id]].conn; [Result(was, KICKOUT, 0, None), Disconnecting(was)]
    else []
  }

  // What registering does, reports and asks for, from state s to state s', as event `ev`.
  ghost predicate Registration(s: State, s': State, ev: Event, c: Connection, cmd: RegisterCommand, token: string,
                               result: RegisterResult, effects: seq<Effect>)
    requires WellFormed(s)
  {
    && ev.Registering? && ev.c == c && ev.cmd == cmd && ev.token == token
    && Possible(s, ev) && s' == Next(s, ev)
    && result == Reported(s, c, cmd, ChosenId(cmd, ev.drawn), token)
    && effects == Kicked(s, c, cmd, ChosenId(cmd, ev.drawn))
  }

  lemma AgainIsStep(s: State, c: Connection, cmd: RegisterCommand, id: EndpointId, token: string)
    requires WellFormed(s) && c in s.open && id in s.endpoints && cmd.id == id != 0
    ensures var ev := Registering(c, cmd, id, s.endpoints[id], token);
            var s' := Rejoin(s, c, cmd, id, token);
            var result := Reported(s, c, cmd, id, token);
            && (result == Refused <==> !Accepted(s, c, cmd, id))
            && Registration(s, if result == Refused then s else s'.(pending := s'.pending - {c.fd}), ev, c, cmd, token,
                            result, Kicked(s, c, cmd, id))
  {
    RejoinConnections(s, c, cmd, id, token);
    hide WellFormed, Rejoin, Accepted, Kicked;
  }

  lemma EnrolIsStep(s: State, c: Connection, cmd: RegisterCommand, id: EndpointId, e: Endpoint, token: string)
    requires WellFormed(s) && c in s.open && id !in s.endpoints && e !in s.store && Authenticated(cmd)
    requires cmd.id == id != 0 || (cmd.id == 0 && 1 <= id <= 65535)
    ensures var ev := Registering(c, cmd, id, e, token);
            var s' := Enrol(s, c, cmd, id, e, token);
            Registration(s, s'.(pending := s'.pending - {c.fd}), ev, c, cmd, token, Registered(id, token, 0), [])
  {
    hide WellFormed;
  }

  // ----- The subscriber index, one message type at a time -----

  lemma AddedAt(index: map<MessageId, set<EndpointId>>, messages: set<MessageId>, id: EndpointId, x: MessageId)
    ensures var p := AddSubscriber(index, messages, id);
            && (x in p <==> x in index || x in messages)
            && Subscribed(p, x) == Subscribed(index, x) + if x in messages then {id} else {}
  {
  }

  lemma AddOneSubscriber(index: map<MessageId, set<EndpointId>>, before: set<MessageId>, m: MessageId, id: EndpointId)
    ensures AddSubscriber(AddSubscriber(index, before, id), {m}, id) == AddSubscriber(index, before + {m}, id)
  {
    var p := AddSubscriber(AddSubscriber(index, before, id), {m}, id);
    var q := AddSubscriber(index, before + {m}, id);
    hide AddSubscriber;
    forall x: MessageId ensures (x in p <==> x in q) && (x in p ==> p[x] == q[x]) {
      AddedAt(index, before, id, x);
      AddedAt(AddSubscriber(index, before, id), {m}, id, x);
      AddedAt(index, before + {m}, id, x);
    }
  }

  lemma Added(index: map<MessageId, set<EndpointId>>, m: MessageId, id: EndpointId)
    ensures AddSubscriber(index, {m}, id) == index[m := Subscribed(index, m) + {id}]
  {
    var p := AddSubscriber(index, {m}, id);
    assert p.Keys == index.Keys + {m};
    assert forall x | x in index && x != m :: p[x] == index[x];
  }

  lemma AddNoSubscriber(index: map<MessageId, set<EndpointId>>, id: EndpointId)
    ensures AddSubscriber(index, {}, id) == index && DropSubscriber(index, {}, id) == index
  {
    assert AddSubscriber(index, {}, id).Keys == index.Keys;
    assert forall x | x in index :: AddSubscriber(index, {}, id)[x] == index[x];
  }

  lemma DropOneSubscriber(index: map<MessageId, set<EndpointId>>, before: set<MessageId>, m: MessageId, id: EndpointId)
    ensures DropSubscriber(DropSubscriber(index, before, id), {m}, id) == DropSubscriber(index, before + {m}, id)
  {
    var p := DropSubscriber(DropSubscriber(index, before, id), {m}, id);
    var q := DropSubscriber(index, before + {m}, id);
    if m in index {
      assert index[m] - {id} - {id} == index[m] - {id};
    }
    assert p.Keys == q.Keys;
    assert forall x | x in p :: p[x] == q[x];
  }

  lemma NextElement<T>(q: seq<T>, k: nat)
    requires k < |q|
    ensures Elements(q[..k + 1]) == Elements(q[..k]) + {q[k]}
  {
  }

  // ----- Kickout -----

  // An endpoint that is found is told, and its connection asked to close; in the order in which they are named.
  ghost function KickedOut(s: State, targets: seq<EndpointId>): seq<Effect>
    requires WellFormed(s)
  {
    if targets == [] then [] else KickedOut(s, targets[..|targets| - 1]) + KickedOne(s, targets[|targets| - 1])
  }

  ghost function KickedOne(s: State, id: EndpointId): seq<Effect>
    requires WellFormed(s)
  {
    if id in s.endpoints
    then var c := s.store[s.endpoints[id]].conn; [Result(c, KICKOUT, 0, None), Disconnecting(c)] else []
  }

  lemma KickedNext(s: State, targets: seq<EndpointId>, k: nat)
    requires WellFormed(s) && k < |targets|
    ensures KickedOut(s, targets[..k + 1]) == KickedOut(s, targets[..k]) + KickedOne(s, targets[k])
  {
    assert targets[..k + 1][..k] == targets[..k];
  }

  class Service {
    const context: SwitchContext
    const outbox: Outbox

    constructor (context: SwitchContext, outbox: Outbox)
      ensures this.context == context && this.outbox == outbox
    {
      this.context, this.outbox := context, outbox;
    }

    // `draws` is what the random source yields, one draw after the other; at least one of them is free.
    method AllocateEndpointId(draws: seq<EndpointId>) returns (id: EndpointId)
      requires exists k :: 0 <= k < |draws| && draws[k] !in context.endpoints
      ensures id in draws && id !in context.endpoints
    {
      var k := 0;
      id := draws[0];
      while id in context.endpoints
        invariant 0 <= k < |draws| && id == draws[k]
        invariant forall j | 0 <= j <= k :: j < k ==> draws[j] in context.endpoints
        decreases |draws| - k
      {
        k := k + 1;
        id := draws[k];
      }
    }

    method InsertInto(t: ServiceType, e: Endpoint)
      modifies context`serviceEndpoints
      ensures context.serviceEndpoints == InsertService(old(context.serviceEndpoints), t, e)
    {
      if t !in context.serviceEndpoints {
        context.serviceEndpoints := context.serviceEndpoints[t := {}];
      }
      context.serviceEndpoints := context.serviceEndpoints[t := context.serviceEndpoints[t] + {e}];
    }

    method EraseFrom(t: ServiceType, e: Endpoint)
      modifies context`serviceEndpoints
      ensures context.serviceEndpoints == EraseService(old(context.serviceEndpoints), t, e)
    {
      if t !in context.serviceEndpoints {
        context.serviceEndpoints := context.serviceEndpoints[t := {}];
      }
      context.serviceEndpoints := context.serviceEndpoints[t := context.serviceEndpoints[t] - {e}];
      if context.serviceEndpoints[t] == {} {
        context.serviceEndpoints := context.serviceEndpoints - {t};
      }
    }

    method EnterRole(id: EndpointId, e: Endpoint, role: Role, svcType: ServiceType)
      modifies context`normalEndpoints, context`adminEndpoints, context`serviceEndpoints
      ensures context.normalEndpoints
              == if role.Normal? then old(context.normalEndpoints)[id := e] else old(context.normalEndpoints)
      ensures context.adminEndpoints
              == if role.Admin? then old(context.adminEndpoints)[id := e] else old(context.adminEndpoints)
      ensures context.serviceEndpoints
              == if role.Service? then InsertService(old(context.serviceEndpoints), svcType, e)
                 else old(context.serviceEndpoints)
    {
      match role {
        case Normal => context.normalEndpoints := context.normalEndpoints[id := e];
        case Admin => context.adminEndpoints := context.adminEndpoints[id := e];
        case Service => InsertInto(svcType, e);
        case Undefined =>
      }
    }

    method LeaveRole(id: EndpointId, e: Endpoint)
      modifies context`normalEndpoints, context`adminEndpoints, context`serviceEndpoints
      ensures context.normalEndpoints
              == if e.role.Normal? then old(context.normalEndpoints) - {id} else old(context.normalEndpoints)
      ensures context.adminEndpoints
              == if e.role.Admin? then old(context.adminEndpoints) - {id} else old(context.adminEndpoints)
      ensures context.serviceEndpoints
              == if e.role.Service? then EraseService(old(context.serviceEndpoints), e.svcType, e)
                 else old(context.serviceEndpoints)
    {
      match e.role {
        case Normal => context.normalEndpoints := context.normalEndpoints - {id};
        case Admin => context.adminEndpoints := context.adminEndpoints - {id};
        case Service => EraseFrom(e.svcType, e);
        case Undefined =>
      }
    }

    // The branch for an id that is not registered.
    method EnrolEndpoint(conn: Connection, cmd: RegisterCommand, id: EndpointId, token: string)
      returns (ghost created: Endpoint)
      requires context.Valid() && conn in context.connections && Authenticated(cmd)
      modifies context, conn
      ensures context.Valid() && context.View() == Enrol(old(context.View()), conn, cmd, id, created, token)
      ensures fresh(created) && created !in old(context.View()).store
    {
      hide Enrol, WellFormed, Ids, Records, InsertService, SwitchContext.View, SwitchContext.Valid, RoleOf;
      var role := RoleOf(cmd.role);
      var e := new Endpoint(id, conn);
      created := e;
      e.role := role;
      e.token := token;
      context.endpoints := context.endpoints[id := e];
      if role == Role.Service {
        e.svcType := cmd.svcType;
      }
      EnterRole(id, e, role, cmd.svcType);
      conn.SetID(id);
      assert conn in context.connections && e !in context.objects;
      context.objects := context.objects + {e};
      context.Enrolled(conn, cmd, id, e, token);
    }

    method RegisterNew(conn: Connection, cmd: RegisterCommand, id: EndpointId, token: string)
      returns (result: RegisterResult, ghost ev: Event)
      requires context.Valid() && conn in context.open && id !in context.endpoints && Authenticated(cmd)
      requires cmd.id == id != 0 || (cmd.id == 0 && 1 <= id <= 65535)
      modifies context, conn
      ensures context.Valid()
      ensures Registration(old(context.View()), context.View(), ev, conn, cmd, token, result, [])
    {
      hide *;
      Known(conn);
      ghost var s := context.View();
      ghost var e := EnrolEndpoint(conn, cmd, id, token);
      EnrolIsStep(s, conn, cmd, id, e, token);
      context.ErasePending(conn.fd);
      ev := Registering(conn, cmd, id, e, token);
      result := Registered(id, token, 0);
    }

    // What kicking out asks for; the registry changes when the connection is closed.
    method KickoutEndpoint(e: Endpoint)
      modifies outbox
      ensures outbox.log == old(outbox.log) + [Result(e.conn, KICKOUT, 0, None), Disconnecting(e.conn)]
    {
      outbox.Add(Result(e.conn, KICKOUT, 0, None));
      outbox.Add(Disconnecting(e.conn));
    }

    method SwitchRole(id: EndpointId, e: Endpoint, role: Role, svcType: ServiceType)
      requires context.Valid() && e in context.objects && role != e.role
      modifies context, e
      ensures context.Valid() && e in old(context.View()).store
      ensures context.View() == Registry.SwitchRole(old(context.View()), id, e, role, svcType)
      ensures context.objects == old(context.objects) && context.connections == old(context.connections)
      ensures e.View() == old(e.View()).(role := role)
    {
      hide Registry.SwitchRole, WellFormed, Ids, Records, InsertService, EraseService;
      hide SwitchContext.View, SwitchContext.Valid;
      LeaveRole(id, e);
      EnterRole(id, e, role, svcType);
      e.role := role;
      context.RoleSwitched(id, e, role, svcType);
    }

    method SwitchType(e: Endpoint, from: ServiceType, to: ServiceType)
      requires context.Valid() && e in context.objects && to != from
      modifies context, e
      ensures context.Valid() && e in old(context.View()).store
      ensures context.View() == Registry.SwitchType(old(context.View()), e, from, Role.Service, to)
      ensures context.objects == old(context.objects) && context.connections == old(context.connections)
    {
      hide Registry.SwitchType, WellFormed, Ids, Records, InsertService, EraseService;
      hide SwitchContext.View, SwitchContext.Valid;
      EraseFrom(from, e);
      InsertInto(to, e);
      e.svcType := to;
      context.TypeSwitched(e, from, to);
    }

    // The connection and the token of an endpoint that registers again.
    method Reconnect(e: Endpoint, conn: Connection, cmd: RegisterCommand, token: string)
      returns (renewed: string)
      requires context.Valid() && e in context.objects && conn in context.connections
      requires e.conn.fd != conn.fd ==> cmd.token != "" && cmd.token == e.token
      modifies e, outbox
      ensures context.Valid() && e in old(context.View()).store
      ensures var s, role := old(context.View()), RoleOf(cmd.role);
              && context.View() == s.(store := s.store[e := Reconnected(s.store[e], conn, role, TokenMatches(s, e, cmd), token)])
              && renewed == if TokenMatches(s, e, cmd) || role != s.store[e].role then token else ""
      ensures outbox.log == old(outbox.log) + if old(e.conn).fd != conn.fd
                then [Result(old(e.conn), KICKOUT, 0, None), Disconnecting(old(e.conn))] else []
      ensures e.role == old(e.role) && e.svcType == old(e.svcType)
    {
      assert context.View().store[e].conn in context.View().ids;
      renewed := "";
      if e.conn.fd != conn.fd {
        KickoutEndpoint(e);
        e.conn := conn;
      }
      if (cmd.token != "" && cmd.token == e.token) || RoleOf(cmd.role) != e.role {
        renewed := token;
        e.token := renewed;
      }
      context.Rewritten(e);
    }

    lemma Stored(id: EndpointId)
      requires context.Valid() && id in context.endpoints
      ensures var e := context.endpoints[id];
              && e in context.objects && e in context.View().store && context.View().store[e] == e.View()
    {
    }

    // The branch for a registered id.
    method RegisterAgain(conn: Connection, cmd: RegisterCommand, id: EndpointId, token: string)
      returns (result: RegisterResult)
      requires context.Valid() && conn in context.connections && id in context.endpoints && Authenticated(cmd)
      modifies context, context.objects, outbox
      ensures context.Valid() && result == Reported(old(context.View()), conn, cmd, id, token)
      ensures var s := old(context.View());
              context.View() == if Accepted(s, conn, cmd, id) then Rejoin(s, conn, cmd, id, token) else s
      ensures outbox.log == old(outbox.log) + Kicked(old(context.View()), conn, cmd, id)
    {
      hide WellFormed, Ids, Records;
      Stored(id);
      hide SwitchContext.Valid;
      var e, role := context.endpoints[id], RoleOf(cmd.role);
      var existingType := e.svcType;
      if e.conn.fd != conn.fd && (cmd.token == "" || cmd.token != e.token) {
        return Refused;
      }
      var renewed := Reconnect(e, conn, cmd, token);
      var switched: Byte := 0;
      if role != e.role {
        SwitchRole(id, e, role, cmd.svcType);
        switched := cmd.role;
      }
      if role == Role.Service && cmd.svcType != existingType {
        SwitchType(e, existingType, cmd.svcType);
      }
      result := Registered(id, renewed, switched);
    }

    lemma Known(conn: Connection)
      requires context.Valid() && conn in context.open
      ensures conn in context.connections && WellFormed(context.View()) && conn in context.View().open
      ensures context.View().endpoints == context.endpoints
    {
    }

    method RegisterKnown(conn: Connection, cmd: RegisterCommand, id: EndpointId, token: string)
      returns (result: RegisterResult, ghost ev: Event, ghost effects: seq<Effect>)
      requires context.Valid() && conn in context.open && id in context.endpoints && Authenticated(cmd) && cmd.id == id != 0
      modifies context, context.objects, outbox
      ensures context.Valid() && outbox.log == old(outbox.log) + effects
      ensures Registration(old(context.View()), context.View(), ev, conn, cmd, token, result, effects)
    {
      hide *;
      Known(conn);
      ghost var s := context.View();
      AgainIsStep(s, conn, cmd, id, token);
      ev := Registering(conn, cmd, id, context.endpoints[id], token);
      effects := Kicked(s, conn, cmd, id);
      result := RegisterAgain(conn, cmd, id, token);
      if result != Refused {
        context.ErasePending(conn.fd);
      }
      assert Registration(s, context.View(), ev, conn, cmd, token, result, effects);
    }

    /** One registration is one step of the registry, or refused before the registry is looked at. */
    method RegisterEndpoint(conn: Connection, cmd: RegisterCommand, draws: seq<EndpointId>, token: string)
      returns (result: RegisterResult, ghost step: Option<Event>, ghost effects: seq<Effect>)
      requires context.Valid() && conn in context.open
      requires forall k | 0 <= k < |draws| :: 1 <= draws[k] <= 65535
      requires cmd.id == 0 ==> exists k :: 0 <= k < |draws| && draws[k] !in context.endpoints
      modifies context, conn, context.objects, outbox
      ensures context.Valid() && outbox.log == old(outbox.log) + effects
      ensures step.None? <==> !(cmd.authorized && 1 <= cmd.role <= 3)
      ensures step.None? ==> result == Refused && context.View() == old(context.View()) && effects == []
      ensures step.Some? ==> Registration(old(context.View()), context.View(), step.value, conn, cmd, token, result, effects)
    {
      hide WellFormed, Registration, SwitchContext.View, SwitchContext.Valid;
      if !Authenticated(cmd) {
        return Refused, None, [];
      }
      var id := cmd.id;
      if id == 0 {
        id := AllocateEndpointId(draws);
      }
      ghost var ev;
      if id in context.endpoints {
        result, ev, effects := RegisterKnown(conn, cmd, id, token);
      } else {
        result, ev := RegisterNew(conn, cmd, id, token);
        effects := [];
      }
      step := Some(ev);
    }

    // ----- Filters -----

    method Index(m: MessageId, id: EndpointId)
      modifies context`messageSubscribers
      ensures context.messageSubscribers == AddSubscriber(old(context.messageSubscribers), {m}, id)
    {
      if m in context.messageSubscribers {
        context.messageSubscribers := context.messageSubscribers[m := context.messageSubscribers[m] + {id}];
      } else {
        context.messageSubscribers := context.messageSubscribers[m := {id}];
      }
      assert {} + {id} == {id};
      Added(old(context.messageSubscribers), m, id);
    }

    method Unindex(m: MessageId, id: EndpointId)
      modifies context`messageSubscribers
      ensures context.messageSubscribers == DropSubscriber(old(context.messageSubscribers), {m}, id)
    {
      if m in context.messageSubscribers {
        context.messageSubscribers := context.messageSubscribers[m := context.messageSubscribers[m] - {id}];
        if context.messageSubscribers[m] == {} {
          context.messageSubscribers := context.messageSubscribers - {m};
        }
      }
    }

    method IndexAll(messages: seq<MessageId>, id: EndpointId)
      modifies context`messageSubscribers
      ensures context.messageSubscribers == AddSubscriber(old(context.messageSubscribers), Elements(messages), id)
    {
      hide AddSubscriber;
      AddNoSubscriber(context.messageSubscribers, id);
      assert Elements(messages[..0]) == {};
      for k := 0 to |messages|
        invariant context.messageSubscribers == AddSubscriber(old(context.messageSubscribers), Elements(messages[..k]), id)
      {
        Index(messages[k], id);
        NextElement(messages, k);
        AddOneSubscriber(old(context.messageSubscribers), Elements(messages[..k]), messages[k], id);
      }
      assert messages[..|messages|] == messages;
    }

    method UnindexAll(messages: seq<MessageId>, id: EndpointId)
      modifies context`messageSubscribers
      ensures context.messageSubscribers == DropSubscriber(old(context.messageSubscribers), Elements(messages), id)
    {
      hide DropSubscriber;
      AddNoSubscriber(context.messageSubscribers, id);
      assert Elements(messages[..0]) == {};
      for k := 0 to |messages|
        invariant context.messageSubscribers == DropSubscriber(old(context.messageSubscribers), Elements(messages[..k]), id)
      {
        Unindex(messages[k], id);
        NextElement(messages, k);
        DropOneSubscriber(old(context.messageSubscribers), Elements(messages[..k]), messages[k], id);
      }
      assert messages[..|messages|] == messages;
    }

    lemma StoredIn(e: Endpoint)
      requires context.Valid() && e in context.objects
      ensures e in context.View().store && WellFormed(context.View()) && e.conn in context.connections
    {
      assert context.View().store[e].conn in context.View().ids;
    }

    lemma NothingNamed(e: Endpoint, cmd: FilterCommand)
      requires context.Valid() && e in context.View().store && cmd.NamesNothing()
      ensures Filter(context.View(), e, cmd) == context.View()
    {
    }

    method Forward(e: Endpoint, targets: seq<EndpointId>) returns (errcode: Byte)
      requires context.Valid() && e in context.objects
      modifies context`messageSubscribers, e
      ensures context.Valid() && e in old(context.View()).store
      ensures context.View() == Filter(old(context.View()), e, FilterCommand.Forward(targets))
      ensures errcode == if FilterCommand.Forward(targets).NamesNothing() then 1 else 0
    {
      StoredIn(e);
      hide WellFormed, Filter, Reindexed, Ids, Records, SwitchContext.View, SwitchContext.Valid;
      if targets == [] {
        NothingNamed(e, FilterCommand.Forward(targets));
        return 1;
      }
      e.SetForwardTargets(targets);
      context.Filtered(e, FilterCommand.Forward(targets));
      errcode := 0;
    }

    method Unforward(e: Endpoint, targets: seq<EndpointId>) returns (errcode: Byte)
      requires context.Valid() && e in context.objects
      modifies context`messageSubscribers, e
      ensures context.Valid() && e in old(context.View()).store
      ensures context.View() == Filter(old(context.View()), e, FilterCommand.Unforward(targets))
      ensures errcode == if FilterCommand.Unforward(targets).NamesNothing() then 1 else 0
    {
      StoredIn(e);
      hide WellFormed, Filter, Reindexed, Ids, Records, SwitchContext.View, SwitchContext.Valid;
      if targets == [] {
        NothingNamed(e, FilterCommand.Unforward(targets));
        return 1;
      }
      e.UnsetForwardTargets(targets);
      context.Filtered(e, FilterCommand.Unforward(targets));
      errcode := 0;
    }

    method Subscribe(e: Endpoint, sources: seq<EndpointId>, messages: seq<MessageId>) returns (errcode: Byte)
      requires context.Valid() && e in context.objects
      modifies context`messageSubscribers, e
      ensures context.Valid() && e in old(context.View()).store
      ensures context.View() == Filter(old(context.View()), e, FilterCommand.Subscribe(sources, messages))
      ensures errcode == if FilterCommand.Subscribe(sources, messages).NamesNothing() then 1 else 0
    {
      StoredIn(e);
      hide WellFormed, Filter, Reindexed, Ids, Records, SwitchContext.View, SwitchContext.Valid;
      if sources == [] && messages == [] {
        NothingNamed(e, FilterCommand.Subscribe(sources, messages));
        return 1;
      }
      if sources != [] {
        e.SubscribeSources(sources);
      }
      if messages != [] {
        e.SubscribeMessages(messages);
      }
      IndexAll(messages, e.Id());
      context.Filtered(e, FilterCommand.Subscribe(sources, messages));
      errcode := 0;
    }

    method Unsubscribe(e: Endpoint, sources: seq<EndpointId>, messages: seq<MessageId>) returns (errcode: Byte)
      requires context.Valid() && e in context.objects
      modifies context`messageSubscribers, e
      ensures context.Valid() && e in old(context.View()).store
      ensures context.View() == Filter(old(context.View()), e, FilterCommand.Unsubscribe(sources, messages))
      ensures errcode == if FilterCommand.Unsubscribe(sources, messages).NamesNothing() then 1 else 0
    {
      StoredIn(e);
      hide WellFormed, Filter, Reindexed, Ids, Records, SwitchContext.View, SwitchContext.Valid;
      if sources == [] && messages == [] {
        NothingNamed(e, FilterCommand.Unsubscribe(sources, messages));
        return 1;
      }
      if sources != [] {
        e.UnsubscribeSources(sources);
      }
      if messages != [] {
        e.UnsubscribeMessages(messages);
      }
      UnindexAll(messages, e.Id());
      context.Filtered(e, FilterCommand.Unsubscribe(sources, messages));
      errcode := 0;
    }

    method Reject(e: Endpoint, sources: seq<EndpointId>, messages: seq<MessageId>) returns (errcode: Byte)
      requires context.Valid() && e in context.objects
      modifies context`messageSubscribers, e
      ensures context.Valid() && e in old(context.View()).store
      ensures context.View() == Filter(old(context.View()), e, FilterCommand.Reject(sources, messages))
      ensures errcode == if FilterCommand.Reject(sources, messages).NamesNothing() then 1 else 0
    {
      StoredIn(e);
      hide WellFormed, Filter, Reindexed, Ids, Records, SwitchContext.View, SwitchContext.Valid;
      if sources == [] && messages == [] {
        NothingNamed(e, FilterCommand.Reject(sources, messages));
        return 1;
      }
      if sources != [] {
        e.RejectSources(sources);
      }
      if messages != [] {
        e.RejectMessages(messages);
      }
      context.Filtered(e, FilterCommand.Reject(sources, messages));
      errcode := 0;
    }

    method Unreject(e: Endpoint, sources: seq<EndpointId>, messages: seq<MessageId>) returns (errcode: Byte)
      requires context.Valid() && e in context.objects
      modifies context`messageSubscribers, e
      ensures context.Valid() && e in old(context.View()).store
      ensures context.View() == Filter(old(context.View()), e, FilterCommand.Unreject(sources, messages))
      ensures errcode == if FilterCommand.Unreject(sources, messages).NamesNothing() then 1 else 0
    {
      StoredIn(e);
      hide WellFormed, Filter, Reindexed, Ids, Records, SwitchContext.View, SwitchContext.Valid;
      if sources == [] && messages == [] {
        NothingNamed(e, FilterCommand.Unreject(sources, messages));
        return 1;
      }
      if sources != [] {
        e.UnrejectSources(sources);
      }
      if messages != [] {
        e.UnrejectMessages(messages);
      }
      context.Filtered(e, FilterCommand.Unreject(sources, messages));
      errcode := 0;
    }

    // ----- Routing -----

    predicate IsForwardingAllowed(source: Endpoint, target: Endpoint, m: MessageId)
      reads source, source.conn, target, target.conn
    {
      if source.Id() == target.Id() then false
      else if target.IsRejectedSource(source.Id()) then false
      else if !target.IsSubscribedSource(source.Id()) then false
      else if m > 0 then
        if target.IsRejectedMessage(m) then false
        else if !target.IsSubscribedMessage(m) then false
        else true
      else true
    }

    /** The branches decide as the closed formula does. */
    lemma DecidesAsFormula(source: Endpoint, target: Endpoint, m: MessageId)
      requires context.Valid() && source in context.objects && target in context.objects
      ensures source in context.View().store && target in context.View().store
      ensures IsForwardingAllowed(source, target, m) <==> ForwardingAllowed(context.View(), source, target, m)
    {
      StoredIn(source);
      StoredIn(target);
      FieldsStored(source);
      FieldsStored(target);
      hide WellFormed, Ids, Records, SwitchContext.View, SwitchContext.Valid;
    }

    /** In a state that an allowed run has reached, the branches decide between the endpoints of two connections by what
        the target's connection has sent about the id of the source's. */
    lemma DecidesByHistory(r: Run, j: nat, c: Connection, d: Connection, m: MessageId)
      requires context.Valid() && IsAllowedRun(r) && j < |r.states| && r.states[j] == context.View()
      requires OwnsEndpoint(context.View(), c) && OwnsEndpoint(context.View(), d)
      ensures c.id in context.endpoints && d.id in context.endpoints
      ensures IsForwardingAllowed(context.endpoints[c.id], context.endpoints[d.id], m)
              <==> c.id != d.id && Filters.Admits(Filters.History(r, j, d), c.id, m)
    {
      Filters.DecisionBetween(r, j, c, d, m);
      var s := context.View();
      Filters.OwnedFacts(s, c);
      Filters.OwnedFacts(s, d);
      OwnerRegistered(c);
      OwnerRegistered(d);
      DecidesAsFormula(context.endpoints[c.id], context.endpoints[d.id], m);
      hide IsAllowedRun, OwnsEndpoint, IsForwardingAllowed, ForwardingAllowed, SwitchContext.View, SwitchContext.Valid, WellFormed;
      hide Filters.Admits, Filters.History;
    }

    lemma OwnerRegistered(c: Connection)
      requires context.Valid() && c in context.View().ids && context.View().ids[c] in context.View().endpoints
      ensures c.id == context.View().ids[c] && context.View().endpoints == context.endpoints
      ensures context.endpoints[c.id] in context.objects
    {
      assert context.View().endpoints[c.id] in context.View().store;
    }

    lemma FieldsStored(e: Endpoint)
      requires context.Valid() && e in context.objects
      ensures e in context.View().store && context.View().store[e] == e.View()
      ensures e.conn in context.View().ids && context.View().ids[e.conn] == e.Id()
    {
      assert context.View().store[e].conn in context.View().ids;
    }

    // ----- Kickout -----

    method KickoutFound(id: EndpointId)
      requires context.Valid()
      modifies outbox
      ensures outbox.log == old(outbox.log) + KickedOne(context.View(), id)
    {
      if id in context.endpoints {
        Stored(id);
        KickoutEndpoint(context.endpoints[id]);
      }
    }

    method KickoutEndpoints(targets: seq<EndpointId>) returns (errcode: Byte)
      requires context.Valid()
      modifies outbox
      ensures context.Valid() && errcode == if targets == [] then 1 else 0
      ensures outbox.log == old(outbox.log) + KickedOut(context.View(), targets)
    {
      hide *;
      ghost var s := context.View();
      Consistent();
      KickedFrom(s, targets);
      if targets == [] {
        return 1;
      }
      for k := 0 to |targets|
        invariant context.Valid() && context.View() == s
        invariant outbox.log == old(outbox.log) + KickedOut(s, targets[..k])
      {
        KickedNext(s, targets, k);
        OneByOne(old(outbox.log), KickedOut(s, targets[..k]), KickedOne(s, targets[k]));
        KickoutFound(targets[k]);
      }
      errcode := 0;
    }

    lemma Consistent()
      requires context.Valid()
      ensures WellFormed(context.View())
    {
    }

    lemma KickedFrom(s: State, targets: seq<EndpointId>)
      requires WellFormed(s)
      ensures KickedOut(s, targets[..0]) == [] && targets[..|targets|] == targets && (targets == [] ==> KickedOut(s, targets) == [])
    {
    }

    // ----- Statistics -----

    lemma ServiceSets(t: ServiceType)
      requires context.Valid()
      ensures var s := context.View();
              && WellFormed(s) && s.services == context.serviceEndpoints && s.subscribers == context.messageSubscribers
              && ServiceSet(s.services, t) <= context.objects && context.objects == s.store.Keys
              && (t in s.services ==> ServiceSet(s.services, t) == s.services[t])
    {
      var s := context.View();
      StoredSets(s, t);
      hide WellFormed;
      assert context.objects == s.store.Keys;
    }

    lemma IdStored(e: Endpoint)
      requires context.Valid() && e in context.objects
      ensures e in context.View().store && WellFormed(context.View()) && IdOf(context.View(), e) == e.Id()
    {
      FieldsStored(e);
    }

    method InsertIds(ids: set<EndpointId>, t: ServiceType) returns (more: set<EndpointId>)
      requires context.Valid() && t in context.serviceEndpoints
      ensures var s := context.View();
              && WellFormed(s) && ServiceSet(s.services, t) <= s.store.Keys
              && more == ids + IdsOf(s, ServiceSet(s.services, t))
    {
      hide *;
      ServiceSets(t);
      ghost var s := context.View();
      ghost var done: set<Endpoint> := {};
      var all := context.serviceEndpoints[t];
      var rest := all;
      more := ids;
      NoIds(s);
      while rest != {}
        invariant done + rest == all && done <= s.store.Keys && more == ids + IdsOf(s, done)
        decreases |rest|
      {
        var e :| e in rest;
        IdStored(e);
        OneMoreId(s, done, e);
        more := more + {e.Id()};
        done, rest := done + {e}, rest - {e};
      }
    }

    lemma NoIds(s: State)
      requires WellFormed(s)
      ensures IdsOf(s, {}) == {}
    {
    }

    // How many endpoints there are in all service sets together, by their ids.
    method CountServiceIds() returns (total: nat)
      requires context.Valid()
      ensures WellFormed(context.View()) && total == |ServiceIds(context.View())|
    {
      hide *;
      ServiceSets(0);
      ghost var s := context.View();
      AllTypes(s);
      var ids: set<EndpointId> := {};
      var rest := context.serviceEndpoints.Keys;
      ghost var done: set<ServiceType> := {};
      while rest != {}
        invariant done + rest == context.serviceEndpoints.Keys && ids == IdsOfTypes(s, done)
        decreases |rest|
      {
        var t :| t in rest;
        OneMoreType(s, done, t);
        ids := InsertIds(ids, t);
        done, rest := done + {t}, rest - {t};
      }
      total := |ids|;
    }

    method CountSubscriberIds() returns (total: nat)
      requires context.Valid()
      ensures WellFormed(context.View()) && total == |SubscriberIds(context.View().subscribers)|
    {
      hide *;
      ServiceSets(0);
      ghost var index := context.messageSubscribers;
      AllMessages(index);
      var ids: set<EndpointId> := {};
      var rest := context.messageSubscribers.Keys;
      ghost var done: set<MessageId> := {};
      while rest != {}
        invariant done + rest == index.Keys && ids == SubscribersOf(index, done)
        decreases |rest|
      {
        var m :| m in rest;
        OneMoreMessage(index, done, m);
        ids := ids + context.messageSubscribers[m];
        done, rest := done + {m}, rest - {m};
      }
      total := |ids|;
    }

    // The ids of one service set, in whatever order it is walked.
    method ListIds(t: ServiceType) returns (q: seq<EndpointId>)
      requires context.Valid() && t in context.serviceEndpoints
      ensures WellFormed(context.View()) && ListsService(context.View(), t, q)
    {
      hide *;
      ServiceSets(t);
      ghost var s := context.View();
      ghost var done: set<Endpoint> := {};
      var all := context.serviceEndpoints[t];
      var rest := all;
      q := [];
      NoTally(s);
      while rest != {}
        invariant done + rest == all && done !! rest && done <= s.store.Keys
        invariant ListsIds(s, done, q)
        decreases |rest|
      {
        var e :| e in rest;
        IdStored(e);
        OneMoreTallies(s, done, e, q);
        q := q + [e.Id()];
        done, rest := done + {e}, rest - {e};
      }
      ListsAll(s, t, done, q);
    }

    method ListServices() returns (lists: map<ServiceType, seq<EndpointId>>)
      requires context.Valid()
      ensures WellFormed(context.View()) && ServicesListed(context.View(), context.View().services.Keys, lists)
    {
      hide *;
      ServiceSets(0);
      ghost var s := context.View();
      lists := map[];
      NoServicesListed(s);
      var rest := context.serviceEndpoints.Keys;
      ghost var done: set<ServiceType> := {};
      while rest != {}
        invariant done + rest == context.serviceEndpoints.Keys && done !! rest && ServicesListed(s, done, lists)
        decreases |rest|
      {
        var t :| t in rest;
        var q := ListIds(t);
        OneMoreListed(s, done, lists, t, q);
        if context.serviceEndpoints[t] != {} {
          lists := lists[t := q];
        }
        done, rest := done + {t}, rest - {t};
      }
    }

    method ListSubscribers() returns (lists: map<MessageId, seq<EndpointId>>)
      ensures SubscribersListed(context.messageSubscribers, context.messageSubscribers.Keys, lists)
    {
      lists := map[];
      var rest := context.messageSubscribers.Keys;
      ghost var done: set<MessageId> := {};
      while rest != {}
        invariant done + rest == context.messageSubscribers.Keys && done !! rest
        invariant SubscribersListed(context.messageSubscribers, done, lists)
        decreases |rest|
      {
        var m :| m in rest;
        if context.messageSubscribers[m] != {} {
          lists := lists[m := InOrder(context.messageSubscribers[m])];
        }
        done, rest := done + {m}, rest - {m};
      }
    }

    method GetStats(details: bool) returns (st: Stats)
      requires context.Valid()
      ensures WellFormed(context.View()) && ReportsTotals(context.View(), st)
      ensures details ==> ReportsDetails(context.View(), st)
      ensures !details ==> st.normalIds == [] && st.adminIds == [] && st.serviceIds == map[] && st.subscriberIds == map[]
    {
      hide WellFormed, ServiceIds, SubscriberIds, Ascending, InOrder, ServicesListed, SubscribersListed, ListsService;
      var svcEpTotal := CountServiceIds();
      var msgEpTotal := CountSubscriberIds();
      st := Stats(|context.endpoints|, |context.normalEndpoints|, |context.adminEndpoints|, |context.serviceEndpoints|,
                  svcEpTotal, |context.messageSubscribers|, msgEpTotal, |context.pendingClients|, [], [], map[], map[]);
      if details {
        var services := ListServices();
        var subscribers := ListSubscribers();
        st := st.(normalIds := InOrder(context.normalEndpoints.Keys), adminIds := InOrder(context.adminEndpoints.Keys),
                  serviceIds := services, subscriberIds := subscribers);
        DetailsListed(context.View(), st);
      }
    }
  }
}
