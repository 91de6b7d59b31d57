/** Publishing and the service protocol as the server runs them: loops over the context's maps, the received buffer
    converted in place, and what is then sent. */
module CommandHandler {
  import opened SwitchTypes
  import opened Entities
  import opened Registry
  import opened RegistryInvariant
  import opened Routing
  import opened Runs
  import opened Services
  import opened Context
  import opened Network
  import SwitchService
  import Wire

  // ----- What is sent -----

  ghost function SentAll(s: State, targets: seq<Endpoint>, bytes: seq<Byte>): seq<Effect> {
    if targets == [] then []
    else
      var last := targets[|targets| - 1];
      SentAll(s, targets[..|targets| - 1], bytes) + if last in s.store then [Sent(s.store[last].conn, bytes)] else []
  }

  lemma SentNext(s: State, targets: seq<Endpoint>, bytes: seq<Byte>, k: nat)
    requires k < |targets| && targets[k] in s.store
    ensures SentAll(s, targets[..k + 1], bytes) == SentAll(s, targets[..k], bytes) + [Sent(s.store[targets[k]].conn, bytes)]
  {
    assert targets[..k + 1][..k] == targets[..k];
  }

  // All a publish sends: the bytes to each target in turn, then how many there were to the publisher.
  ghost function Published(s: State, source: Endpoint, cmd: Byte, targets: seq<Endpoint>, bytes: seq<Byte>): seq<Effect>
    requires source in s.store
  {
    SentAll(s, targets, bytes) + [Result(s.store[source].conn, cmd, 0, Some(|targets|))]
  }

  ghost function PlainTargets(s: State, source: Endpoint): seq<Endpoint>
    requires WellFormed(s) && source in s.store
  {
    EndpointsOf(s.normal, InOrder(PlainIds(s, source, s.store[source].fwdTargets)))
  }

  ghost function TypedTargets(s: State, source: Endpoint, m: MessageId): seq<Endpoint>
    requires WellFormed(s) && source in s.store
  {
    EndpointsOf(s.endpoints, InOrder(TypedIds(s, source, m)))
  }

  // The targets of a typed publish, read from the buffer.
  ghost function Receivers(s: State, e: Endpoint, buf: seq<Byte>): seq<Endpoint>
    requires WellFormed(s) && e in s.store && Wire.HoldsTargets(buf)
  {
    if Wire.TargetCount(buf) > 0 then ExplicitTargets(s, e, Wire.MessageType(buf), Wire.Targets(buf))
    else if s.subscribers != map[] then TypedTargets(s, e, Wire.MessageType(buf))
    else PlainTargets(s, e)
  }

  class Handler {
    const context: SwitchContext
    const service: SwitchService.Service
    const outbox: Outbox
    // Whether the length field counts itself.
    const selfIncluded: bool

    ghost predicate Valid()
      reads context, context.connections, context.objects
    {
      context.Valid() && service.context == context && service.outbox == outbox
    }

    constructor (context: SwitchContext, service: SwitchService.Service, outbox: Outbox, selfIncluded: bool)
      requires context.Valid() && service.context == context && service.outbox == outbox
      ensures this.context == context && this.service == service && this.outbox == outbox
      ensures this.selfIncluded == selfIncluded && Valid()
    {
      this.context, this.service, this.outbox, this.selfIncluded := context, service, outbox, selfIncluded;
    }

    // ----- Plain publish -----

    lemma InPlain(source: Endpoint, id: EndpointId)
      requires Valid() && source in context.objects
      ensures var s := context.View();
              && WellFormed(s) && source in s.store && s.store[source].fwdTargets == source.fwdTargets
              && s.normal == context.normalEndpoints && PlainIds(s, source, source.fwdTargets) <= s.normal.Keys
      ensures id in context.normalEndpoints ==>
                && context.normalEndpoints[id] in context.objects
                && (id in PlainIds(context.View(), source, source.fwdTargets)
                    <==> && (source.fwdTargets == {} || 0 in source.fwdTargets || id in source.fwdTargets)
                         && service.IsForwardingAllowed(source, context.normalEndpoints[id], 0))
    {
      service.FieldsStored(source);
      if id in context.normalEndpoints {
        assert context.View().normal[id] in context.View().store;
        service.DecidesAsFormula(source, context.normalEndpoints[id], 0);
      }
      hide ForwardingAllowed, Ids, Records, SwitchService.Service.IsForwardingAllowed;
    }

    method BroadcastTargets(e: Endpoint) returns (targets: seq<Endpoint>)
      requires Valid() && e in context.objects
      requires e.fwdTargets == {} || 0 in e.fwdTargets
      ensures e in context.View().store && targets == PlainTargets(context.View(), e)
      ensures forall t | t in targets :: t in context.objects
    {
      hide *;
      var order := InOrder(context.normalEndpoints.Keys);
      ghost var s, chosen := PlainWalk(e, order);
      targets := [];
      for k := 0 to |order|
        invariant targets == EndpointsOf(s.normal, Chosen(order[..k], chosen))
        invariant forall t | t in targets :: t in context.objects
      {
        InPlain(e, order[k]);
        var target := context.normalEndpoints[order[k]];
        if !service.IsForwardingAllowed(e, target, 0) {
          WalkPassed(s.normal, order, chosen, k);
          continue;
        }
        WalkTaken(s.normal, order, chosen, k);
        targets := targets + [target];
      }
    }

    // What a walk over the normal endpoints starts and ends with.
    lemma PlainWalk(e: Endpoint, order: seq<EndpointId>) returns (s: State, chosen: set<EndpointId>)
      requires Valid() && e in context.objects && order == InOrder(context.normalEndpoints.Keys)
      ensures s == context.View() && WellFormed(s) && e in s.store && s.normal == context.normalEndpoints
      ensures chosen == PlainIds(s, e, e.fwdTargets)
      ensures forall k | 0 <= k < |order| :: order[k] in context.normalEndpoints
      ensures EndpointsOf(s.normal, Chosen(order[..0], chosen)) == []
      ensures EndpointsOf(s.normal, Chosen(order[..|order|], chosen)) == PlainTargets(s, e)
    {
      hide WellFormed, PlainIds, EndpointsOf, Chosen, SwitchService.Service.IsForwardingAllowed;
      InPlain(e, 0);
      s := context.View();
      chosen := PlainIds(s, e, e.fwdTargets);
      ChosenInOrder(order, s.normal.Keys, chosen);
      WalkStart(s.normal, order, chosen);
      assert order[..|order|] == order;
    }

    method MulticastTargets(e: Endpoint) returns (targets: seq<Endpoint>)
      requires Valid() && e in context.objects
      requires !(e.fwdTargets == {} || 0 in e.fwdTargets)
      ensures e in context.View().store && targets == PlainTargets(context.View(), e)
      ensures forall t | t in targets :: t in context.objects
    {
      hide *;
      var order := InOrder(e.fwdTargets);
      ghost var s, chosen := MulticastWalk(e, order);
      targets := [];
      for k := 0 to |order|
        invariant targets == EndpointsOf(s.normal, Chosen(order[..k], chosen))
        invariant forall t | t in targets :: t in context.objects
      {
        InPlain(e, order[k]);
        if order[k] !in context.normalEndpoints {
          WalkPassed(s.normal, order, chosen, k);
          continue;
        }
        var target := context.normalEndpoints[order[k]];
        if !service.IsForwardingAllowed(e, target, 0) {
          WalkPassed(s.normal, order, chosen, k);
          continue;
        }
        WalkTaken(s.normal, order, chosen, k);
        targets := targets + [target];
      }
    }

    // The same over the forward set.
    lemma MulticastWalk(e: Endpoint, order: seq<EndpointId>) returns (s: State, chosen: set<EndpointId>)
      requires Valid() && e in context.objects && order == InOrder(e.fwdTargets)
      requires !(e.fwdTargets == {} || 0 in e.fwdTargets)
      ensures s == context.View() && WellFormed(s) && e in s.store && s.normal == context.normalEndpoints
      ensures chosen == PlainIds(s, e, e.fwdTargets) && chosen <= context.normalEndpoints.Keys
      ensures forall k | 0 <= k < |order| :: order[k] in e.fwdTargets
      ensures EndpointsOf(s.normal, Chosen(order[..0], chosen)) == []
      ensures EndpointsOf(s.normal, Chosen(order[..|order|], chosen)) == PlainTargets(s, e)
    {
      hide WellFormed, EndpointsOf, Chosen, ForwardingAllowed, SwitchService.Service.IsForwardingAllowed;
      InPlain(e, 0);
      s := context.View();
      chosen := PlainIds(s, e, e.fwdTargets);
      assert chosen <= e.fwdTargets;
      ChosenInOrder(order, e.fwdTargets, chosen);
      WalkStart(s.normal, order, chosen);
      assert order[..|order|] == order;
    }

    // ----- Explicit targets -----

    lemma InEndpoints(source: Endpoint, id: EndpointId, m: MessageId)
      requires Valid() && source in context.objects
      ensures var s := context.View();
              && WellFormed(s) && source in s.store && s.endpoints == context.endpoints
              && s.subscribers == context.messageSubscribers
      ensures id in context.endpoints ==>
                && context.endpoints[id] in context.objects && context.endpoints[id] in context.View().store
                && (ForwardingAllowed(context.View(), source, context.endpoints[id], m)
                    <==> service.IsForwardingAllowed(source, context.endpoints[id], m))
    {
      service.FieldsStored(source);
      if id in context.endpoints {
        assert context.View().endpoints[id] in context.View().store;
        service.DecidesAsFormula(source, context.endpoints[id], m);
      }
      hide ForwardingAllowed, Ids, Records, SwitchService.Service.IsForwardingAllowed;
    }

    method FindExplicitTargets(e: Endpoint, m: MessageId, ids: seq<EndpointId>) returns (targets: seq<Endpoint>)
      requires Valid() && e in context.objects
      ensures e in context.View().store && targets == ExplicitTargets(context.View(), e, m, ids)
      ensures forall t | t in targets :: t in context.objects
    {
      hide *;
      InEndpoints(e, 0, m);
      ghost var s := context.View();
      ExplicitStart(s, e, m, ids);
      targets := [];
      for i := 0 to |ids|
        invariant targets == ExplicitTargets(s, e, m, ids[..i])
        invariant forall t | t in targets :: t in context.objects
      {
        InEndpoints(e, ids[i], m);
        ExplicitStep(s, e, m, ids, i);
        if ids[i] !in context.endpoints {
          continue;
        }
        var target := context.endpoints[ids[i]];
        if !service.IsForwardingAllowed(e, target, m) {
          continue;
        }
        targets := targets + [target];
      }
    }

    // ----- Typed publish -----

    method FindTypedTargets(e: Endpoint, m: MessageId) returns (targets: seq<Endpoint>)
      requires Valid() && e in context.objects
      ensures e in context.View().store && targets == TypedTargets(context.View(), e, m)
      ensures forall t | t in targets :: t in context.objects
    {
      hide *;
      var subscribers := if m in context.messageSubscribers then context.messageSubscribers[m] else {};
      var order := InOrder(subscribers);
      ghost var s, chosen := TypedWalk(e, m, subscribers, order);
      targets := [];
      for k := 0 to |order|
        invariant targets == EndpointsOf(s.endpoints, Chosen(order[..k], chosen))
        invariant forall t | t in targets :: t in context.objects
      {
        InTyped(e, m, order[k]);
        if order[k] in context.endpoints {
          var target := context.endpoints[order[k]];
          if !service.IsForwardingAllowed(e, target, m) {
            WalkPassed(s.endpoints, order, chosen, k);
            continue;
          }
          WalkTaken(s.endpoints, order, chosen, k);
          targets := targets + [target];
        } else {
          WalkPassed(s.endpoints, order, chosen, k);
        }
      }
    }

    lemma InTyped(source: Endpoint, m: MessageId, id: EndpointId)
      requires Valid() && source in context.objects
      ensures WellFormed(context.View()) && source in context.View().store
      ensures id in TypedIds(context.View(), source, m)
              <==> && id in Subscribed(context.messageSubscribers, m) && id in context.endpoints
                   && service.IsForwardingAllowed(source, context.endpoints[id], m)
      ensures id in context.endpoints ==> context.endpoints[id] in context.objects
    {
      InEndpoints(source, id, m);
      hide ForwardingAllowed, Ids, Records, Subscribed, SwitchService.Service.IsForwardingAllowed;
    }

    lemma TypedWalk(e: Endpoint, m: MessageId, subscribers: set<EndpointId>, order: seq<EndpointId>)
      returns (s: State, chosen: set<EndpointId>)
      requires Valid() && e in context.objects && order == InOrder(subscribers)
      requires subscribers == if m in context.messageSubscribers then context.messageSubscribers[m] else {}
      ensures s == context.View() && WellFormed(s) && e in s.store && s.endpoints == context.endpoints
      ensures chosen == TypedIds(s, e, m) && subscribers == Subscribed(context.messageSubscribers, m)
      ensures forall k | 0 <= k < |order| :: order[k] in subscribers
      ensures EndpointsOf(s.endpoints, Chosen(order[..0], chosen)) == []
      ensures EndpointsOf(s.endpoints, Chosen(order[..|order|], chosen)) == TypedTargets(s, e, m)
    {
      hide WellFormed, EndpointsOf, Chosen, ForwardingAllowed, SwitchService.Service.IsForwardingAllowed;
      InEndpoints(e, 0, m);
      s := context.View();
      chosen := TypedIds(s, e, m);
      ChosenInOrder(order, subscribers, chosen);
      WalkStart(s.endpoints, order, chosen);
      assert order[..|order|] == order;
    }

    // ----- Sending -----

    method SendAll(targets: seq<Endpoint>, bytes: seq<Byte>)
      requires Valid() && forall t | t in targets :: t in context.objects
      modifies outbox
      ensures outbox.log == old(outbox.log) + SentAll(context.View(), targets, bytes)
    {
      hide *;
      ghost var s := context.View();
      SentFrom(s, targets, bytes);
      for k := 0 to |targets|
        invariant Valid() && context.View() == s
        invariant outbox.log == old(outbox.log) + SentAll(s, targets[..k], bytes)
      {
        ConnOf(targets[k]);
        SentNext(s, targets, bytes, k);
        OneByOne(old(outbox.log), SentAll(s, targets[..k], bytes), [Sent(targets[k].conn, bytes)]);
        outbox.Add(Sent(targets[k].conn, bytes));
      }
    }

    lemma ConnOf(e: Endpoint)
      requires Valid() && e in context.objects
      ensures e in context.View().store && WellFormed(context.View()) && context.View().store[e].conn == e.conn
      ensures context.View().store[e].fwdTargets == e.fwdTargets
    {
      service.FieldsStored(e);
      hide WellFormed;
    }

    method Send(targets: seq<Endpoint>, e: Endpoint, cmd: Byte, buf: array<Byte>)
      requires Valid() && e in context.objects && buf.Length >= Wire.HEADER_SIZE
      requires forall t | t in targets :: t in context.objects
      modifies outbox, buf
      ensures e in context.View().store && context.View() == old(context.View()) && Valid()
      ensures outbox.log == old(outbox.log) + Published(context.View(), e, cmd, targets, Wire.ToNetwork(old(buf[..]), selfIncluded))
    {
      hide *;
      ConnOf(e);
      ghost var s := context.View();
      Wire.ConvertToNetworkMessage(buf, selfIncluded);
      SendAll(targets, buf[..]);
      PublishedIs(s, e, cmd, targets, buf[..]);
      OneByOne(old(outbox.log), SentAll(s, targets, buf[..]), [Result(e.conn, cmd, 0, Some(|targets|))]);
      outbox.Add(Result(e.conn, cmd, 0, Some(|targets|)));
    }

    method HandlePublishData(e: Endpoint, buf: array<Byte>)
      requires Valid() && e in context.objects && buf.Length >= Wire.HEADER_SIZE
      modifies outbox, buf
      ensures Valid() && context.View() == old(context.View()) && e in context.View().store
      ensures var s := context.View();
              outbox.log == old(outbox.log)
                + Published(s, e, old(buf[0]), PlainTargets(s, e), Wire.ToNetwork(old(buf[..]), selfIncluded))
    {
      var cmd := buf[0];
      hide *;
      var targets;
      if e.fwdTargets == {} || 0 in e.fwdTargets {
        targets := BroadcastTargets(e);
      } else {
        targets := MulticastTargets(e);
      }
      Send(targets, e, cmd, buf);
    }

    method HandlePublishDataToTargets(e: Endpoint, buf: array<Byte>)
      requires Valid() && e in context.objects && Wire.HoldsTargets(buf[..])
      modifies outbox, buf
      ensures Valid() && context.View() == old(context.View()) && e in context.View().store
      ensures var s := context.View();
              outbox.log == old(outbox.log)
                + Published(s, e, old(buf[0]), Receivers(s, e, old(buf[..])), Wire.ToNetwork(old(buf[..]), selfIncluded))
    {
      hide *;
      Wire.TargetsFit(buf[..]);
      InEndpoints(e, 0, 0);
      ReceiversAre(context.View(), e, buf[..]);
      var cmd := buf[0];
      var m := Wire.MessageType(buf[..]);
      var targets;
      if Wire.TargetCount(buf[..]) > 0 {
        var ids := Wire.ReadTargets(buf);
        targets := FindExplicitTargets(e, m, ids);
      } else if context.messageSubscribers != map[] {
        targets := FindTypedTargets(e, m);
      } else {
        HandlePublishData(e, buf);
        return;
      }
      Send(targets, e, cmd, buf);
    }

    lemma ReceiversAre(s: State, e: Endpoint, buf: seq<Byte>)
      requires WellFormed(s) && e in s.store && Wire.HoldsTargets(buf)
      ensures Receivers(s, e, buf)
              == if Wire.TargetCount(buf) > 0 then ExplicitTargets(s, e, Wire.MessageType(buf), Wire.Targets(buf))
                 else if s.subscribers != map[] then TypedTargets(s, e, Wire.MessageType(buf))
                 else PlainTargets(s, e)
    {
    }

    // ----- Services -----

    lemma InServices(source: Endpoint, header: ServiceHeader)
      requires Valid() && source in context.objects
      ensures var s := context.View();
              && WellFormed(s) && source in s.store && s.services == context.serviceEndpoints
              && ServiceSet(s.services, Consulted(s.services, header.svcType)) <= context.objects
              && (forall e | e in ServiceSet(s.services, Consulted(s.services, header.svcType)) ::
                    e in Candidates(s, source, header) <==> service.IsForwardingAllowed(source, e, header.svcCmd))
    {
      service.FieldsStored(source);
      var s := context.View();
      var all := ServiceSet(s.services, Consulted(s.services, header.svcType));
      assert forall e | e in all :: e in s.store;
      forall e | e in all
        ensures e in Candidates(s, source, header) <==> service.IsForwardingAllowed(source, e, header.svcCmd)
      {
        service.DecidesAsFormula(source, e, header.svcCmd);
      }
      hide ForwardingAllowed, Ids, Records, SwitchService.Service.IsForwardingAllowed;
    }

    // The first allowed endpoint of the consulted set, in whatever order the set is walked.
    method SelectService(e: Endpoint, header: ServiceHeader) returns (chosen: Option<Endpoint>)
      requires Valid() && e in context.objects
      ensures e in context.View().store && Selectable(context.View(), e, header, chosen)
      ensures chosen.Some? ==> chosen.value in context.objects
    {
      hide *;
      InServices(e, header);
      var consulted: set<Endpoint> := {};
      if header.svcType in context.serviceEndpoints {
        consulted := context.serviceEndpoints[header.svcType];
      } else if 0 in context.serviceEndpoints {
        consulted := context.serviceEndpoints[0];
      }
      ConsultedIs(context.View(), e, header, consulted);
      chosen := None;
      var rest := consulted;
      while rest != {} && chosen == None
        invariant rest <= consulted
        invariant chosen == None ==> forall x | x in consulted - rest :: x !in Candidates(context.View(), e, header)
        invariant chosen.Some? ==> chosen.value in Candidates(context.View(), e, header) && chosen.value in consulted
        decreases |rest|
      {
        var target :| target in rest;
        rest := rest - {target};
        if service.IsForwardingAllowed(e, target, header.svcCmd) {
          chosen := Some(target);
        }
      }
      SelectableIs(context.View(), e, header, consulted, chosen);
    }

    method HandleServiceRequest(e: Endpoint, buf: array<Byte>) returns (ghost chosen: Option<Endpoint>)
      requires Valid() && e in context.objects && buf.Length >= Wire.HEADER_SIZE + Wire.SERVICE_SIZE
      modifies outbox, buf
      ensures Valid() && context.View() == old(context.View()) && e in context.View().store
      ensures var s := context.View();
              && Selectable(s, e, Wire.ServiceHeaderAt(old(buf[..]), Wire.HEADER_SIZE), chosen)
              && (chosen.Some? ==> chosen.value in s.store)
              && outbox.log == old(outbox.log) + [
                   if chosen.Some? then Sent(s.store[chosen.value].conn, Wire.ToNetwork(old(buf[..]), selfIncluded))
                   else Sent(s.store[e].conn, Wire.ServiceReply(old(buf[..]), 1, Wire.NO_SERVICE, selfIncluded))]
    {
      hide *;
      var header := Wire.ServiceHeaderAt(buf[..], Wire.HEADER_SIZE);
      ConnOf(e);
      var found := SelectService(e, header);
      chosen := found;
      if found.Some? {
        ConnOf(found.value);
        Wire.ConvertToNetworkMessage(buf, selfIncluded);
        outbox.Add(Sent(found.value.conn, buf[..]));
      } else {
        var reply := Wire.Reply(buf, 1, Wire.NO_SERVICE, selfIncluded);
        outbox.Add(Sent(e.conn, reply));
      }
    }

    // From a connection `conn` whose id is registered.
    method HandleServiceResponse(ghost conn: Connection, buf: array<Byte>)
      requires Valid() && buf.Length >= Wire.HEADER_SIZE + Wire.SERVICE_SIZE
      requires conn in context.connections && conn.id in context.endpoints
      modifies outbox, buf
      ensures Valid() && context.View() == old(context.View())
      ensures var s := context.View();
              var to := DeliveredTo(s, conn, Wire.ServiceHeaderAt(old(buf[..]), Wire.HEADER_SIZE));
              outbox.log == old(outbox.log)
                + if to.Some? then [Sent(to.value, Wire.ToNetwork(old(buf[..]), selfIncluded))] else []
    {
      hide *;
      var header := Wire.ServiceHeaderAt(buf[..], Wire.HEADER_SIZE);
      DeliveryIs(conn, header);
      if header.source in context.endpoints {
        Wire.ConvertToNetworkMessage(buf, selfIncluded);
        outbox.Add(Sent(context.endpoints[header.source].conn, buf[..]));
      }
    }

    lemma DeliveryIs(conn: Connection, header: ServiceHeader)
      requires Valid() && conn in context.connections && conn.id in context.endpoints
      ensures WellFormed(context.View())
      ensures DeliveredTo(context.View(), conn, header)
              == if header.source in context.endpoints then Some(context.endpoints[header.source].conn) else None
    {
      if header.source in context.endpoints {
        assert context.View().endpoints[header.source] in context.View().store;
      }
    }

    // ----- Dispatch -----

    lemma Opened()
      requires Valid()
      ensures context.Valid() && service.context == context && service.outbox == outbox && WellFormed(context.View())
    {
    }

    lemma Closes()
      requires context.Valid() && service.context == context && service.outbox == outbox
      ensures Valid()
    {
    }

    method HandleRegister(conn: Connection, content: Content, draws: seq<EndpointId>, token: string)
      returns (ghost step: Option<Event>, ghost effects: seq<Effect>)
      requires Valid() && conn in context.open
      requires forall k | 0 <= k < |draws| :: 1 <= draws[k] <= 65535
      requires content.register.id == 0 ==> exists k :: 0 <= k < |draws| && draws[k] !in context.endpoints
      modifies context, conn, context.objects, outbox
      ensures Valid() && StepOf(old(context.View()), context.View(), conn, step)
      ensures step.Some? <==> content.readable && content.register.authorized && 1 <= content.register.role <= 3
      ensures step.Some? ==> step.value.Registering? && step.value.c == conn && step.value.cmd == content.register
      ensures WellFormed(old(context.View()))
      // A wrong access code, an unknown role or an unreadable payload: the error, and nothing else.
      ensures !(content.readable && content.register.authorized && 1 <= content.register.role <= 3) ==>
                context.View() == old(context.View()) && outbox.log == old(outbox.log) + [Result(conn, 2, 1, None)]
      ensures effects == if step.Some? then Displaced(old(context.View()), step.value) else []
      ensures outbox.log == old(outbox.log) + (effects
                + [Result(conn, REG, if step.Some? && Registers(old(context.View()), step.value) then 0 else 1, None)])
    {
      hide *;
      Opened();
      ghost var s := context.View();
      NoStep(s, conn);
      RefusalIs(content);
      assert [] + [Result(conn, REG, 1, None)] == [Result(conn, REG, 1, None)];
      if !content.readable {
        outbox.Add(Result(conn, REG, 1, None));
        return None, [];
      }
      var result;
      result, step, effects := service.RegisterEndpoint(conn, content.register, draws, token);
      if step.Some? {
        RegistrationIsStep(s, context.View(), step.value, conn, content.register, token, result, effects);
      }
      var errcode: Byte := if result == SwitchService.Refused then 1 else 0;
      OneByOne(old(outbox.log), effects, [Result(conn, REG, errcode, None)]);
      outbox.Add(Result(conn, REG, errcode, None));
      Closes();
    }

    lemma RefusalIs(content: Content)
      ensures REG == 2
      ensures Authenticated(content.register) <==> content.register.authorized && 1 <= content.register.role <= 3
    {
    }

    lemma SenderKnown(conn: Connection, e: Endpoint)
      requires Valid() && conn in context.open && conn.id in context.endpoints && e == context.endpoints[conn.id]
      ensures var s := context.View();
              && WellFormed(s) && conn in s.open && conn in s.ids && s.ids[conn] in s.endpoints
              && s.endpoints[s.ids[conn]] == e && e in s.store && e in context.objects
    {
      assert context.View().endpoints[conn.id] in context.View().store;
    }

    // The method of the service that the command names.
    method ApplyFilter(e: Endpoint, filter: FilterCommand) returns (errcode: Byte)
      requires Valid() && e in context.objects
      modifies context`messageSubscribers, e
      ensures Valid() && WellFormed(old(context.View())) && e in old(context.View()).store
      ensures context.View() == Filter(old(context.View()), e, filter)
      ensures errcode == if filter.NamesNothing() then 1 else 0
    {
      hide *;
      Opened();
      match filter {
        case Forward(targets) => errcode := service.Forward(e, targets);
        case Unforward(targets) => errcode := service.Unforward(e, targets);
        case Subscribe(sources, messages) => errcode := service.Subscribe(e, sources, messages);
        case Unsubscribe(sources, messages) => errcode := service.Unsubscribe(e, sources, messages);
        case Reject(sources, messages) => errcode := service.Reject(e, sources, messages);
        case Unreject(sources, messages) => errcode := service.Unreject(e, sources, messages);
      }
      Closes();
    }

    method HandleFilter(conn: Connection, e: Endpoint, cmd: Byte, filter: FilterCommand, readable: bool)
      returns (ghost step: Option<Event>)
      requires Valid() && conn in context.open && conn.id in context.endpoints && e == context.endpoints[conn.id]
      modifies context`messageSubscribers, e, outbox
      ensures Valid() && StepOf(old(context.View()), context.View(), conn, step)
      ensures step == if readable then Some(Filtering(conn, filter)) else None
      ensures outbox.log
              == old(outbox.log) + [Result(old(e.conn), cmd, if readable && !filter.NamesNothing() then 0 else 1, None)]
    {
      hide *;
      SenderKnown(conn, e);
      ConnOf(e);
      ghost var s := context.View();
      NoStep(s, conn);
      if !readable {
        outbox.Add(Result(e.conn, cmd, 1, None));
        return None;
      }
      var errcode := ApplyFilter(e, filter);
      FilterKeepsConnection(s, e, filter);
      ConnOf(e);
      outbox.Add(Result(e.conn, cmd, errcode, None));
      FilterIsStep(s, conn, e, filter);
      step := Some(Filtering(conn, filter));
    }

    method HandleKickout(conn: Connection, e: Endpoint, content: Content) returns (ghost step: Option<Event>)
      requires Valid() && conn in context.open && conn.id in context.endpoints && e == context.endpoints[conn.id]
      modifies outbox
      ensures Valid() && StepOf(old(context.View()), context.View(), conn, step)
      ensures step == if e.role == Role.Admin && content.readable then Some(Kickout(conn, content.targets)) else None
      ensures WellFormed(context.View())
      ensures outbox.log == old(outbox.log)
                + ((if step.Some? then SwitchService.KickedOut(context.View(), content.targets) else [])
                   + [Result(e.conn, KICKOUT, if step.Some? && content.targets != [] then 0 else 1, None)])
    {
      hide *;
      SenderKnown(conn, e);
      Opened();
      ghost var s := context.View();
      NoStep(s, conn);
      if e.role != Role.Admin || !content.readable {
        assert [] + [Result(e.conn, KICKOUT, 1, None)] == [Result(e.conn, KICKOUT, 1, None)];
        outbox.Add(Result(e.conn, KICKOUT, 1, None));
        return None;
      }
      var errcode := service.KickoutEndpoints(content.targets);
      OneByOne(old(outbox.log), SwitchService.KickedOut(s, content.targets), [Result(e.conn, KICKOUT, errcode, None)]);
      outbox.Add(Result(e.conn, KICKOUT, errcode, None));
      step := Some(Kickout(conn, content.targets));
      Unchanging(s, step.value);
      Closes();
    }

    // Publishing and services: the commands that are passed on.
    method HandleRouted(conn: Connection, e: Endpoint, buf: array<Byte>) returns (ghost ev: Event)
      requires Valid() && conn in context.open && conn.id in context.endpoints && e == context.endpoints[conn.id]
      requires Wire.Complete(buf[..]) && (buf[0] == PUBLISH || buf[0] == PUBLISH_2 || buf[0] == SVC)
      modifies outbox, buf
      ensures Valid() && context.View() == old(context.View()) && WellFormed(context.View()) && e in context.View().store
      ensures StepOf(old(context.View()), context.View(), conn, Some(ev))
      ensures Announces(context.View(), conn, e, old(buf[..]), ev)
      ensures outbox.log == old(outbox.log) + Answer(context.View(), e, old(buf[..]), ev, selfIncluded)
    {
      ghost var was := buf[..];
      var cmd, responds := buf[0], Wire.HasResponseFlag(buf[..]);
      assert cmd == SVC || cmd == PUBLISH || cmd == PUBLISH_2;
      CompleteMeans(was);
      hide *;
      SenderKnown(conn, e);
      ghost var s := context.View();
      if cmd == PUBLISH {
        ev := Publishing(conn);
        PlainAnswer(s, conn, e, was, selfIncluded);
        HandlePublishData(e, buf);
      } else if cmd == PUBLISH_2 {
        ev := PublishingTo(conn, Wire.MessageType(was), Wire.Targets(was));
        TypedAnswer(s, conn, e, was, selfIncluded);
        HandlePublishDataToTargets(e, buf);
      } else if responds {
        ev := ServiceResponse(conn, Wire.ServiceHeaderAt(was, Wire.HEADER_SIZE));
        ResponseAnswer(s, conn, e, was, selfIncluded);
        HandleServiceResponse(conn, buf);
      } else {
        ghost var chosen := HandleServiceRequest(e, buf);
        ev := ServiceRequest(conn, Wire.ServiceHeaderAt(was, Wire.HEADER_SIZE), chosen);
        RequestAnswer(s, conn, e, was, chosen, selfIncluded);
      }
      Unchanging(s, ev);
    }

    // The commands about the sender itself, and kickout; `was` is the decoded buffer.
    method HandleOwn(conn: Connection, e: Endpoint, cmd: Byte, content: Content, ghost was: seq<Byte>)
      returns (ghost step: Option<Event>)
      requires Valid() && conn in context.open && conn.id in context.endpoints && e == context.endpoints[conn.id]
      requires Wire.Complete(was) && |was| > 0 && was[0] == cmd
      requires cmd !in {ECHO, REG, PUBLISH, PUBLISH_2, SVC}
      modifies outbox, context`messageSubscribers, e
      ensures Valid() && StepOf(old(context.View()), context.View(), conn, step)
      ensures Answered(old(context.View()), conn, was, content, step, selfIncluded, old(outbox.log), outbox.log)
    {
      var kickout := cmd == KICKOUT;
      hide *;
      SenderKnown(conn, e);
      ConnOf(e);
      RoleOfSender(e);
      ghost var s := context.View();
      NoStep(s, conn);
      var filter := FilterOf(cmd, content);
      IsFromRegistered(s, conn, e, was, content);
      if filter.Some? {
        step := HandleFilter(conn, e, cmd, filter.value, content.readable);
        AnsweredFilter(s, conn, e, was, content, selfIncluded, old(outbox.log), outbox.log);
      } else if kickout {
        step := HandleKickout(conn, e, content);
        AnsweredKickout(s, conn, e, was, content, selfIncluded, old(outbox.log), outbox.log);
      } else {
        step := None;
        AnsweredOther(s, conn, e, was, content, selfIncluded, old(outbox.log));
      }
    }

    method HandleKnown(conn: Connection, e: Endpoint, buf: array<Byte>, content: Content) returns (ghost step: Option<Event>)
      requires Valid() && conn in context.open && conn.id in context.endpoints && e == context.endpoints[conn.id]
      requires Wire.Complete(buf[..]) && buf[0] != REG && buf[0] != ECHO
      modifies outbox, buf, context`messageSubscribers, e
      ensures Valid() && StepOf(old(context.View()), context.View(), conn, step)
      ensures Answered(old(context.View()), conn, old(buf[..]), content, step, selfIncluded, old(outbox.log), outbox.log)
    {
      ghost var was := buf[..];
      var cmd := buf[0];
      var routed := cmd == PUBLISH || cmd == PUBLISH_2 || cmd == SVC;
      CompleteMeans(was);
      hide *;
      SenderKnown(conn, e);
      ghost var s := context.View();
      if routed {
        IsFromRegistered(s, conn, e, was, content);
        ghost var ev := HandleRouted(conn, e, buf);
        step := Some(ev);
        AnsweredRouted(s, conn, e, was, content, ev, selfIncluded, old(outbox.log), outbox.log);
      } else {
        step := HandleOwn(conn, e, cmd, content, was);
      }
    }

    lemma RoleOfSender(e: Endpoint)
      requires Valid() && e in context.objects
      ensures e in context.View().store && context.View().store[e].role == e.role
    {
      service.FieldsStored(e);
    }

    /** A received buffer is decoded in place, and then causes the step of the registry that its command names, or none. */
    method HandleCommand(conn: Connection, buf: array<Byte>, content: Content, draws: seq<EndpointId>, token: string)
      returns (ghost step: Option<Event>)
      requires Valid() && conn in context.open && buf.Length >= Wire.HEADER_SIZE
      requires Wire.Complete(Wire.FromNetwork(buf[..], selfIncluded))
      requires forall k | 0 <= k < |draws| :: 1 <= draws[k] <= 65535
      requires content.register.id == 0 ==> exists k :: 0 <= k < |draws| && draws[k] !in context.endpoints
      modifies context, conn, context.objects, outbox, buf
      ensures Valid() && StepOf(old(context.View()), context.View(), conn, step)
      ensures Answered(old(context.View()), conn, Wire.FromNetwork(old(buf[..]), selfIncluded), content, step, selfIncluded,
                       old(outbox.log), outbox.log)
    {
      hide *;
      Opened();
      ghost var s := context.View();
      SenderIn(conn);
      NoStep(s, conn);
      Wire.FromNetworkMessage(buf, selfIncluded);
      ghost var decoded := buf[..];
      CompleteMeans(decoded);
      var echoes, registers := buf[0] == ECHO, buf[0] == REG;
      if echoes {
        outbox.Add(Result(conn, ECHO, 0, None));
        step := None;
        AnsweredEcho(s, conn, decoded, content, selfIncluded, old(outbox.log));
      } else if registers {
        ghost var effects;
        RefusalIs(content);
        step, effects := HandleRegister(conn, content, draws, token);
        AnsweredRegister(s, conn, decoded, content, step, selfIncluded, old(outbox.log), outbox.log);
      } else if conn.id !in context.endpoints {
        outbox.Add(Result(conn, buf[0], 1, None));
        step := None;
        AnsweredUnknown(s, conn, decoded, content, selfIncluded, old(outbox.log));
      } else {
        SenderKnown(conn, context.endpoints[conn.id]);
        step := HandleKnown(conn, context.endpoints[conn.id], buf, content);
      }
    }

    lemma SenderIn(conn: Connection)
      requires Valid() && conn in context.open
      ensures conn in context.View().ids && context.View().ids[conn] == conn.id
      ensures context.View().endpoints == context.endpoints
    {
    }
  }

  function FilterOf(cmd: Byte, content: Content): Option<FilterCommand> {
    if cmd == FWD then Some(Forward(content.targets))
    else if cmd == UNFWD then Some(Unforward(content.targets))
    else if cmd == SUB then Some(Subscribe(content.sources, content.messages))
    else if cmd == UNSUB then Some(Unsubscribe(content.sources, content.messages))
    else if cmd == REJECT then Some(Reject(content.sources, content.messages))
    else if cmd == UNREJECT then Some(Unreject(content.sources, content.messages))
    else None
  }

  lemma NotBoth(cmd: Byte, content: Content)
    ensures FilterOf(cmd, content).Some? ==> !(cmd == PUBLISH || cmd == PUBLISH_2 || cmd == SVC)
  {
  }

  // The step that a decoded buffer from connection c causes in state s.
  ghost predicate Dispatched(s: State, c: Connection, buf: seq<Byte>, content: Content, step: Option<Event>)
    requires WellFormed(s) && Wire.Complete(buf)
  {
    var cmd := buf[0];
    if cmd == ECHO then step == None
    else if cmd == REG then
      && (step.Some? <==> content.readable && Authenticated(content.register))
      && (step.Some? ==> step.value.Registering? && step.value.c == c && step.value.cmd == content.register)
    else if !(c in s.ids && s.ids[c] in s.endpoints) then step == None
    else
      var e := s.endpoints[s.ids[c]];
      if FilterOf(cmd, content).Some? then
        step == if content.readable then Some(Filtering(c, FilterOf(cmd, content).value)) else None
      else if cmd == PUBLISH || cmd == PUBLISH_2 || cmd == SVC then step.Some? && Announces(s, c, e, buf, step.value)
      else if cmd == KICKOUT then
        step == if s.store[e].role == Role.Admin && content.readable then Some(Kickout(c, content.targets)) else None
      else step == None
  }

  // What is then asked of the connections. Commands that none of the branches names are dropped.
  ghost function Reaction(s: State, c: Connection, buf: seq<Byte>, content: Content, step: Option<Event>, selfIncluded: bool)
    : seq<Effect>
    requires WellFormed(s) && Wire.Complete(buf) && Dispatched(s, c, buf, content, step)
  {
    var cmd := buf[0];
    if cmd == ECHO then [Result(c, ECHO, 0, None)]
    else if cmd == REG then
      (if step.Some? then Displaced(s, step.value) else [])
      + [Result(c, REG, if step.Some? && Registers(s, step.value) then 0 else 1, None)]
    else if !(c in s.ids && s.ids[c] in s.endpoints) then [Result(c, cmd, 1, None)]
    else
      var e := s.endpoints[s.ids[c]];
      var to := s.store[e].conn;
      if FilterOf(cmd, content).Some? then
        [Result(to, cmd, if content.readable && !FilterOf(cmd, content).value.NamesNothing() then 0 else 1, None)]
      else if cmd == PUBLISH || cmd == PUBLISH_2 || cmd == SVC then Answer(s, e, buf, step.value, selfIncluded)
      else if cmd == KICKOUT then
        (if step.Some? then SwitchService.KickedOut(s, content.targets) else [])
        + [Result(to, KICKOUT, if step.Some? && content.targets != [] then 0 else 1, None)]
      else []
  }

  // INFO, EP_INFO, SETUP and RELOAD: what they answer to a registered sender is not part of the model.
  predicate Unmodelled(cmd: Byte) {
    cmd in {12, 13, 14, 18}
  }

  // The step is the one that the buffer causes, and the log grows by the reaction.
  ghost predicate Answered(s: State, c: Connection, buf: seq<Byte>, content: Content, step: Option<Event>,
                           selfIncluded: bool, before: seq<Effect>, after: seq<Effect>)
    requires WellFormed(s) && Wire.Complete(buf)
  {
    && Dispatched(s, c, buf, content, step)
    && (!(c in s.ids && s.ids[c] in s.endpoints) || !Unmodelled(buf[0]) ==>
          after == before + Reaction(s, c, buf, content, step, selfIncluded))
  }

  lemma AnsweredEcho(s: State, c: Connection, buf: seq<Byte>, content: Content, selfIncluded: bool, before: seq<Effect>)
    requires WellFormed(s) && Wire.Complete(buf) && |buf| > 0 && buf[0] == ECHO
    ensures Answered(s, c, buf, content, None, selfIncluded, before, before + [Result(c, ECHO, 0, None)])
  {
    hide WellFormed, Answer;
  }

  lemma AnsweredRegister(s: State, c: Connection, buf: seq<Byte>, content: Content, step: Option<Event>,
                         selfIncluded: bool, before: seq<Effect>, after: seq<Effect>)
    requires WellFormed(s) && Wire.Complete(buf) && |buf| > 0 && buf[0] == REG
    requires step.Some? <==> content.readable && Authenticated(content.register)
    requires step.Some? ==> step.value.Registering? && step.value.c == c && step.value.cmd == content.register
    requires after == before + ((if step.Some? then Displaced(s, step.value) else [])
                                + [Result(c, REG, if step.Some? && Registers(s, step.value) then 0 else 1, None)])
    ensures Answered(s, c, buf, content, step, selfIncluded, before, after)
  {
    hide WellFormed, Answer, Displaced, Registers;
  }

  lemma AnsweredUnknown(s: State, c: Connection, buf: seq<Byte>, content: Content, selfIncluded: bool,
                        before: seq<Effect>)
    requires WellFormed(s) && Wire.Complete(buf) && |buf| > 0 && buf[0] != REG && buf[0] != ECHO
    requires c in s.ids && s.ids[c] !in s.endpoints
    ensures Answered(s, c, buf, content, None, selfIncluded, before, before + [Result(c, buf[0], 1, None)])
  {
    hide WellFormed, Answer;
  }

  // A command of a registered sender, that is neither ECHO nor REG.
  ghost predicate FromRegistered(s: State, c: Connection, e: Endpoint, buf: seq<Byte>)
    requires WellFormed(s)
  {
    && Wire.Complete(buf) && |buf| > 0 && buf[0] != REG && buf[0] != ECHO
    && c in s.ids && s.ids[c] in s.endpoints && s.endpoints[s.ids[c]] == e && e in s.store
  }

  lemma IsFromRegistered(s: State, c: Connection, e: Endpoint, buf: seq<Byte>, content: Content)
    requires WellFormed(s) && Wire.Complete(buf) && |buf| > 0 && buf[0] != REG && buf[0] != ECHO
    requires c in s.ids && s.ids[c] in s.endpoints && s.endpoints[s.ids[c]] == e && e in s.store
    ensures FromRegistered(s, c, e, buf)
    ensures FilterOf(buf[0], content).Some? ==> buf[0] != KICKOUT
  {
    hide WellFormed;
  }

  lemma AnsweredRouted(s: State, c: Connection, e: Endpoint, buf: seq<Byte>, content: Content, ev: Event,
                       selfIncluded: bool, before: seq<Effect>, after: seq<Effect>)
    requires WellFormed(s) && FromRegistered(s, c, e, buf) && ev.c == c && Announces(s, c, e, buf, ev)
    requires after == before + Answer(s, e, buf, ev, selfIncluded)
    ensures Answered(s, c, buf, content, Some(ev), selfIncluded, before, after)
  {
    AnnouncedIsRouted(s, c, e, buf, ev);
    NotBoth(buf[0], content);
    hide WellFormed, Announces, Answer, FilterOf;
  }

  lemma AnnouncedIsRouted(s: State, c: Connection, e: Endpoint, buf: seq<Byte>, ev: Event)
    requires WellFormed(s) && FromRegistered(s, c, e, buf) && Announces(s, c, e, buf, ev)
    ensures buf[0] == PUBLISH || buf[0] == PUBLISH_2 || buf[0] == SVC
  {
    hide WellFormed;
  }

  lemma AnsweredFilter(s: State, c: Connection, e: Endpoint, buf: seq<Byte>, content: Content, selfIncluded: bool,
                       before: seq<Effect>, after: seq<Effect>)
    requires WellFormed(s) && FromRegistered(s, c, e, buf) && FilterOf(buf[0], content).Some?
    requires
      var errcode: Byte := if content.readable && !FilterOf(buf[0], content).value.NamesNothing() then 0 else 1;
      after == before + [Result(s.store[e].conn, buf[0], errcode, None)]
    ensures var step := if content.readable then Some(Filtering(c, FilterOf(buf[0], content).value)) else None;
            Answered(s, c, buf, content, step, selfIncluded, before, after)
  {
    hide WellFormed, Announces, Answer, FilterOf;
  }

  lemma AnsweredKickout(s: State, c: Connection, e: Endpoint, buf: seq<Byte>, content: Content, selfIncluded: bool,
                        before: seq<Effect>, after: seq<Effect>)
    requires WellFormed(s) && FromRegistered(s, c, e, buf) && buf[0] == KICKOUT
    requires
      var heeded := s.store[e].role == Role.Admin && content.readable;
      after == before + ((if heeded then SwitchService.KickedOut(s, content.targets) else [])
                         + [Result(s.store[e].conn, KICKOUT, if heeded && content.targets != [] then 0 else 1, None)])
    ensures var heeded := s.store[e].role == Role.Admin && content.readable;
            Answered(s, c, buf, content, if heeded then Some(Kickout(c, content.targets)) else None, selfIncluded, before, after)
  {
    hide WellFormed, Announces, Answer;
  }

  lemma AnsweredOther(s: State, c: Connection, e: Endpoint, buf: seq<Byte>, content: Content, selfIncluded: bool,
                      log: seq<Effect>)
    requires WellFormed(s) && FromRegistered(s, c, e, buf) && buf[0] != KICKOUT && FilterOf(buf[0], content) == None
    requires !(buf[0] == PUBLISH || buf[0] == PUBLISH_2 || buf[0] == SVC)
    ensures Answered(s, c, buf, content, None, selfIncluded, log, log)
  {
    hide WellFormed, Announces, Answer, FilterOf;
    assert log + [] == log;
  }

  lemma FilterKeepsConnection(s: State, e: Endpoint, filter: FilterCommand)
    requires WellFormed(s) && e in s.store
    ensures e in Filter(s, e, filter).store && Filter(s, e, filter).store[e].conn == s.store[e].conn
  {
    hide WellFormed;
  }

  lemma CompleteMeans(buf: seq<Byte>)
    requires Wire.Complete(buf)
    ensures |buf| >= Wire.HEADER_SIZE && |buf| > 0
    ensures buf[0] == PUBLISH_2 ==> Wire.HoldsTargets(buf) && |buf| >= Wire.HEADER_SIZE + Wire.PUBLISH_SIZE
    ensures buf[0] == SVC ==> |buf| >= Wire.HEADER_SIZE + Wire.SERVICE_SIZE
  {
  }

  // The event that a decoded buffer with a routed command announces.
  ghost predicate Announces(s: State, c: Connection, e: Endpoint, buf: seq<Byte>, ev: Event)
    requires WellFormed(s) && e in s.store && Wire.Complete(buf)
  {
    if buf[0] == PUBLISH then ev == Publishing(c)
    else if buf[0] == PUBLISH_2 then ev == PublishingTo(c, Wire.MessageType(buf), Wire.Targets(buf))
    else if buf[0] == SVC then
      var header := Wire.ServiceHeaderAt(buf, Wire.HEADER_SIZE);
      if Wire.HasResponseFlag(buf) then ev == ServiceResponse(c, header)
      else ev.ServiceRequest? && ev.c == c && ev.header == header && Selectable(s, e, header, ev.chosen)
    else false
  }

  // What is sent in answer to it.
  ghost function Answer(s: State, e: Endpoint, buf: seq<Byte>, ev: Event, selfIncluded: bool): seq<Effect>
    requires WellFormed(s) && e in s.store && Wire.Complete(buf) && Announces(s, ev.c, e, buf, ev)
  {
    var bytes := Wire.ToNetwork(buf, selfIncluded);
    match ev
    case Publishing(_) => Published(s, e, buf[0], PlainTargets(s, e), bytes)
    case PublishingTo(_, _, _) => Published(s, e, buf[0], Receivers(s, e, buf), bytes)
    case ServiceRequest(_, _, chosen) =>
      [if chosen.Some? then SelectedStored(s, e, ev.header, chosen.value); Sent(s.store[chosen.value].conn, bytes)
       else Sent(s.store[e].conn, Wire.ServiceReply(buf, 1, Wire.NO_SERVICE, selfIncluded))]
    case ServiceResponse(c, header) =>
      var to := DeliveredTo(s, c, header);
      if to.Some? then [Sent(to.value, bytes)] else []
    case _ => []
  }

  lemma PlainAnswer(s: State, c: Connection, e: Endpoint, buf: seq<Byte>, selfIncluded: bool)
    requires WellFormed(s) && e in s.store && Wire.Complete(buf) && |buf| > 0 && buf[0] == PUBLISH
    ensures |buf| >= Wire.HEADER_SIZE && Announces(s, c, e, buf, Publishing(c))
    ensures Answer(s, e, buf, Publishing(c), selfIncluded)
            == Published(s, e, buf[0], PlainTargets(s, e), Wire.ToNetwork(buf, selfIncluded))
  {
    hide WellFormed;
  }

  lemma TypedAnswer(s: State, c: Connection, e: Endpoint, buf: seq<Byte>, selfIncluded: bool)
    requires WellFormed(s) && e in s.store && Wire.Complete(buf) && |buf| > 0 && buf[0] == PUBLISH_2
    ensures |buf| >= Wire.HEADER_SIZE + Wire.PUBLISH_SIZE && |buf| >= Wire.HEADER_SIZE && Wire.HoldsTargets(buf)
    ensures var ev := PublishingTo(c, Wire.MessageType(buf), Wire.Targets(buf));
            && Announces(s, c, e, buf, ev)
            && Answer(s, e, buf, ev, selfIncluded)
               == Published(s, e, buf[0], Receivers(s, e, buf), Wire.ToNetwork(buf, selfIncluded))
  {
    hide WellFormed;
  }

  lemma ResponseAnswer(s: State, c: Connection, e: Endpoint, buf: seq<Byte>, selfIncluded: bool)
    requires WellFormed(s) && e in s.store && Wire.Complete(buf) && |buf| > 0 && buf[0] == SVC
    requires |buf| >= Wire.HEADER_SIZE && Wire.HasResponseFlag(buf)
    ensures |buf| >= Wire.HEADER_SIZE + Wire.SERVICE_SIZE
    ensures var header := Wire.ServiceHeaderAt(buf, Wire.HEADER_SIZE);
            var to := DeliveredTo(s, c, header);
            && Announces(s, c, e, buf, ServiceResponse(c, header))
            && Answer(s, e, buf, ServiceResponse(c, header), selfIncluded)
               == if to.Some? then [Sent(to.value, Wire.ToNetwork(buf, selfIncluded))] else []
  {
    hide WellFormed;
  }

  lemma RequestAnswer(s: State, c: Connection, e: Endpoint, buf: seq<Byte>, chosen: Option<Endpoint>, selfIncluded: bool)
    requires WellFormed(s) && e in s.store && Wire.Complete(buf) && |buf| > 0 && buf[0] == SVC
    requires |buf| >= Wire.HEADER_SIZE && !Wire.HasResponseFlag(buf) && |buf| >= Wire.HEADER_SIZE + Wire.SERVICE_SIZE
    requires Selectable(s, e, Wire.ServiceHeaderAt(buf, Wire.HEADER_SIZE), chosen)
    requires chosen.Some? ==> chosen.value in s.store
    ensures var ev := ServiceRequest(c, Wire.ServiceHeaderAt(buf, Wire.HEADER_SIZE), chosen);
            && Announces(s, c, e, buf, ev)
            && Answer(s, e, buf, ev, selfIncluded)
               == [if chosen.Some? then Sent(s.store[chosen.value].conn, Wire.ToNetwork(buf, selfIncluded))
                   else Sent(s.store[e].conn, Wire.ServiceReply(buf, 1, Wire.NO_SERVICE, selfIncluded))]
  {
    hide WellFormed, Selectable;
  }

  lemma SelectedStored(s: State, source: Endpoint, header: ServiceHeader, chosen: Endpoint)
    requires WellFormed(s) && source in s.store && Selectable(s, source, header, Some(chosen))
    ensures chosen in s.store
  {
  }

  lemma FilterIsStep(s: State, c: Connection, e: Endpoint, filter: FilterCommand)
    requires WellFormed(s) && c in s.open && c in s.ids && s.ids[c] in s.endpoints && s.endpoints[s.ids[c]] == e
    requires e in s.store
    ensures StepOf(s, Filter(s, e, filter), c, Some(Filtering(c, filter)))
  {
    hide WellFormed, Filter;
  }

  // Publishing, service traffic and kicking out leave the registry alone.
  lemma Unchanging(s: State, ev: Event)
    requires WellFormed(s) && ev.c in s.open
    requires ev.Publishing? || ev.PublishingTo? || ev.ServiceRequest? || ev.ServiceResponse? || ev.Kickout?
    ensures StepOf(s, s, ev.c, Some(ev))
  {
    hide WellFormed;
  }

  // What decoding the payload of a command gives; fields that the payload lacks are empty. `readable`: the payload is
  // empty or its codec is supported.
  datatype Content = Content(readable: bool, register: RegisterCommand, targets: seq<EndpointId>,
                             sources: seq<EndpointId>, messages: seq<MessageId>)

  // The state changes as the step says; no step, no change.
  ghost predicate StepOf(s: State, s': State, c: Connection, step: Option<Event>)
    requires WellFormed(s)
  {
    match step
    case None => s' == s
    case Some(ev) => ev.c == c && Possible(s, ev) && s' == Next(s, ev)
  }

  // Whom a registration displaces.
  ghost function Displaced(s: State, ev: Event): seq<Effect>
    requires WellFormed(s) && ev.Registering?
  {
    SwitchService.Kicked(s, ev.c, ev.cmd, ChosenId(ev.cmd, ev.drawn))
  }

  lemma NoStep(s: State, c: Connection)
    requires WellFormed(s)
    ensures StepOf(s, s, c, None)
  {
  }

  lemma RegistrationIsStep(s: State, s': State, ev: Event, c: Connection, cmd: RegisterCommand, token: string,
                           result: SwitchService.RegisterResult, effects: seq<Effect>)
    requires WellFormed(s) && SwitchService.Registration(s, s', ev, c, cmd, token, result, effects)
    ensures StepOf(s, s', c, Some(ev)) && ev.Registering? && ev.c == c && ev.cmd == cmd
    ensures effects == Displaced(s, ev) && (result == SwitchService.Refused <==> !Registers(s, ev))
  {
    hide WellFormed, Next, Possible, Accepted;
  }

  lemma ConsultedIs(s: State, source: Endpoint, header: ServiceHeader, consulted: set<Endpoint>)
    requires WellFormed(s) && source in s.store
    requires consulted == if header.svcType in s.services then s.services[header.svcType]
                          else if 0 in s.services then s.services[0] else {}
    ensures consulted == ServiceSet(s.services, Consulted(s.services, header.svcType))
  {
  }

  lemma SelectableIs(s: State, source: Endpoint, header: ServiceHeader, consulted: set<Endpoint>, chosen: Option<Endpoint>)
    requires WellFormed(s) && source in s.store
    requires consulted == ServiceSet(s.services, Consulted(s.services, header.svcType))
    requires match chosen
             case None => forall x | x in consulted :: x !in Candidates(s, source, header)
             case Some(e) => e in Candidates(s, source, header)
    ensures Selectable(s, source, header, chosen)
  {
  }

  lemma SentFrom(s: State, targets: seq<Endpoint>, bytes: seq<Byte>)
    ensures SentAll(s, targets[..0], bytes) == [] && targets[..|targets|] == targets
  {
  }

  lemma PublishedIs(s: State, source: Endpoint, cmd: Byte, targets: seq<Endpoint>, bytes: seq<Byte>)
    requires source in s.store
    ensures Published(s, source, cmd, targets, bytes)
            == SentAll(s, targets, bytes) + [Result(s.store[source].conn, cmd, 0, Some(|targets|))]
  {
  }

  lemma ExplicitStart(s: State, source: Endpoint, m: MessageId, ids: seq<EndpointId>)
    requires WellFormed(s) && source in s.store
    ensures ExplicitTargets(s, source, m, ids[..0]) == [] && ids[..|ids|] == ids
  {
  }

  lemma ExplicitStep(s: State, source: Endpoint, m: MessageId, ids: seq<EndpointId>, i: nat)
    requires WellFormed(s) && source in s.store && i < |ids|
    ensures var taken := ids[i] in s.endpoints && ForwardingAllowed(s, source, s.endpoints[ids[i]], m);
            var before := ExplicitTargets(s, source, m, ids[..i]);
            && (taken ==> ExplicitTargets(s, source, m, ids[..i + 1]) == before + [s.endpoints[ids[i]]])
            && (!taken ==> ExplicitTargets(s, source, m, ids[..i + 1]) == before)
  {
    hide WellFormed, ForwardingAllowed;
    assert ids[..i + 1][..i] == ids[..i] && ids[..i + 1][i] == ids[i];
  }
}
