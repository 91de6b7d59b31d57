/** The registry as the server holds it: one object whose maps are updated in place, and the objects they lead to.
    The lemmas say what the updates, field by field, come to in the state. */
module Context {
  import opened SwitchTypes
  import opened Entities
  import opened Registry

  ghost function Ids(connections: set<Connection>): map<Connection, EndpointId>
    reads connections
  {
    map c | c in connections :: c.id
  }

  ghost function Records(objects: set<Endpoint>): map<Endpoint, Record>
    reads objects
  {
    map e | e in objects :: e.View()
  }

  // One endpoint, perhaps a new one, was written.
  twostate lemma RecordWritten(before: set<Endpoint>, new e: Endpoint)
    requires forall x | x in before && x != e :: unchanged(x)
    ensures Records(before + {e}) == old(Records(before))[e := e.View()]
  {
  }

  twostate lemma IdWritten(connections: set<Connection>, new c: Connection)
    requires c in connections
    requires forall d | d in connections && d != c :: unchanged(d)
    ensures Ids(connections) == old(Ids(connections))[c := c.id]
  {
  }

  lemma Same(s: State, t: State)
    requires s.open == t.open && s.ids == t.ids && s.store == t.store && s.pending == t.pending
    requires s.endpoints == t.endpoints && s.normal == t.normal && s.admin == t.admin && s.services == t.services
    requires s.subscribers == t.subscribers
    ensures s == t
  {
  }

  lemma Unknown(s: State, id: EndpointId)
    requires WellFormed(s) && id !in s.endpoints
    ensures Registry.RemoveEndpoint(s, id) == s
  {
  }

  class SwitchContext {
    var pendingClients: map<Fd, Connection>
    var endpoints: map<EndpointId, Endpoint>
    var normalEndpoints: map<EndpointId, Endpoint>
    var adminEndpoints: map<EndpointId, Endpoint>
    var serviceEndpoints: map<ServiceType, set<Endpoint>>
    var messageSubscribers: map<MessageId, set<EndpointId>>

    // The connections that are open, all that ever were, and all endpoints ever created.
    ghost var open: set<Connection>
    ghost var connections: set<Connection>
    ghost var objects: set<Endpoint>

    ghost function View(): State
      reads this, connections, objects
    {
      State(open, Ids(connections), Records(objects), pendingClients, endpoints, normalEndpoints, adminEndpoints,
            serviceEndpoints, messageSubscribers)
    }

    ghost predicate Valid()
      reads this, connections, objects
    {
      WellFormed(View())
    }

    constructor ()
      ensures Valid() && View() == EMPTY && connections == {} && objects == {}
    {
      pendingClients, endpoints, normalEndpoints, adminEndpoints := map[], map[], map[], map[];
      serviceEndpoints, messageSubscribers := map[], map[];
      open, connections, objects := {}, {}, {};
    }

    // What the state said of a stored endpoint is what its fields said.
    twostate lemma Reflected(new e: Endpoint)
      requires old(Valid()) && e in old(View()).store
      ensures e in old(objects) && old(e.conn) in old(connections)
      ensures var s := old(View());
              s.store[e] == old(e.View()) && s.store[e].conn in s.ids && IdOf(s, e) == old(e.Id())
    {
    }

    // ----- Removal -----

    twostate lemma Removed(id: EndpointId)
      requires old(Valid()) && id in old(endpoints)
      requires unchanged(this`open, this`connections, this`objects, this`pendingClients, this`messageSubscribers)
      requires unchanged(connections) && unchanged(objects)
      requires endpoints == old(endpoints) - {id}
      requires var e := old(endpoints[id]);
               && normalEndpoints == (if e.role.Normal? then old(normalEndpoints) - {e.Id()} else old(normalEndpoints))
               && adminEndpoints == (if e.role.Admin? then old(adminEndpoints) - {e.Id()} else old(adminEndpoints))
               && serviceEndpoints == if e.role.Service? && e.svcType in old(serviceEndpoints)
                    then old(serviceEndpoints)[e.svcType := old(serviceEndpoints)[e.svcType] - {e}]
                    else old(serviceEndpoints)
      ensures Valid() && View() == Registry.RemoveEndpoint(old(View()), id)
    {
      ghost var s := old(View());
      RemoveWellFormed(s, id);
      MemberStored(s, id);
      Reflected(old(endpoints[id]));
      hide WellFormed, Ids, Records;
      Same(View(), Registry.RemoveEndpoint(s, id));
    }

    method RemoveEndpoint(id: EndpointId)
      requires Valid()
      modifies this`endpoints, this`normalEndpoints, this`adminEndpoints, this`serviceEndpoints
      ensures Valid() && View() == Registry.RemoveEndpoint(old(View()), id)
    {
      hide Registry.RemoveEndpoint, WellFormed, Ids, Records;
      if id !in endpoints {
        Unknown(View(), id);
        return;
      }
      hide View, Valid;
      var e := endpoints[id];
      match e.role {
        case Normal => normalEndpoints := normalEndpoints - {e.Id()};
        case Admin => adminEndpoints := adminEndpoints - {e.Id()};
        case Service =>
          if e.svcType in serviceEndpoints {
            serviceEndpoints := serviceEndpoints[e.svcType := serviceEndpoints[e.svcType] - {e}];
          }
        case Undefined =>
      }
      endpoints := endpoints - {id};
      Removed(id);
    }

    // ----- Registration -----

    // A new endpoint, created on a connection.
    twostate lemma Enrolled(new c: Connection, new cmd: RegisterCommand, new id: EndpointId, new e: Endpoint, new token: string)
      requires old(Valid()) && c in old(connections) && e !in old(objects)
      requires unchanged(this`open, this`connections, this`pendingClients, this`messageSubscribers)
      requires (forall d | d in connections && d != c :: unchanged(d))
      requires forall x | x in old(objects) :: unchanged(x)
      requires objects == old(objects) + {e} && c.id == id && endpoints == old(endpoints)[id := e]
      requires var role := RoleOf(cmd.role);
               var svcType := if role.Service? then cmd.svcType else 0;
               && e.View() == Record(role, token, c, svcType, {}, {}, {}, {}, {})
               && normalEndpoints == (if role.Normal? then old(normalEndpoints)[id := e] else old(normalEndpoints))
               && adminEndpoints == (if role.Admin? then old(adminEndpoints)[id := e] else old(adminEndpoints))
               && serviceEndpoints == if role.Service? then InsertService(old(serviceEndpoints), svcType, e)
                                      else old(serviceEndpoints)
      ensures e !in old(View()).store
      ensures Valid() && View() == Enrol(old(View()), c, cmd, id, e, token)
    {
      ghost var s := old(View());
      EnrolWellFormed(s, c, cmd, id, e, token);
      RecordWritten(old(objects), e);
      IdWritten(connections, c);
      hide WellFormed, Ids, Records, InsertService;
      Same(View(), Enrol(s, c, cmd, id, e, token));
    }

    // The fields of one stored endpoint.
    twostate lemma Rewritten(new e: Endpoint)
      requires old(Valid()) && e in old(objects) && e.conn in connections
      requires unchanged(this) && unchanged(connections) && forall x | x in objects && x != e :: unchanged(x)
      ensures Valid() && View() == old(View()).(store := old(View()).store[e := e.View()])
    {
      ghost var s := old(View());
      StoreWellFormed(s, e, e.View());
      RecordWritten(objects, e);
      hide WellFormed, Records;
      assert objects + {e} == objects;
      hide Ids;
      Same(View(), s.(store := s.store[e := e.View()]));
    }

    twostate lemma RoleSwitched(new id: EndpointId, new e: Endpoint, new role: Role, new svcType: ServiceType)
      requires old(Valid()) && e in old(objects) && role != old(e.role)
      requires unchanged(this`open, this`connections, this`objects, this`pendingClients, this`messageSubscribers)
      requires unchanged(this`endpoints) && unchanged(connections) && forall x | x in objects && x != e :: unchanged(x)
      requires e.View() == old(e.View()).(role := role)
      requires var was := old(e.View());
               var left := if was.role.Service? then EraseService(old(serviceEndpoints), was.svcType, e)
                           else old(serviceEndpoints);
               var normal := if was.role.Normal? then old(normalEndpoints) - {id} else old(normalEndpoints);
               var admin := if was.role.Admin? then old(adminEndpoints) - {id} else old(adminEndpoints);
               && normalEndpoints == (if role.Normal? then normal[id := e] else normal)
               && adminEndpoints == (if role.Admin? then admin[id := e] else admin)
               && serviceEndpoints == if role.Service? then InsertService(left, svcType, e) else left
      ensures e in old(View()).store
      ensures Valid() && View() == SwitchRole(old(View()), id, e, role, svcType)
    {
      ghost var s := old(View());
      assert e in s.store && s.store[e] == old(e.View());
      SwitchRoleWellFormed(s, id, e, role, svcType);
      RecordWritten(objects, e);
      assert objects + {e} == objects;
      hide WellFormed, Ids, Records, InsertService, EraseService;
      Same(View(), SwitchRole(s, id, e, role, svcType));
    }

    twostate lemma TypeSwitched(new e: Endpoint, new from: ServiceType, new to: ServiceType)
      requires old(Valid()) && e in old(objects) && to != from
      requires unchanged(this`open, this`connections, this`objects, this`pendingClients, this`messageSubscribers)
      requires unchanged(this`endpoints, this`normalEndpoints, this`adminEndpoints) && unchanged(connections)
      requires forall x | x in objects && x != e :: unchanged(x)
      requires e.View() == old(e.View()).(svcType := to)
      requires serviceEndpoints == InsertService(EraseService(old(serviceEndpoints), from, e), to, e)
      ensures e in old(View()).store
      ensures Valid() && View() == SwitchType(old(View()), e, from, Service, to)
    {
      ghost var s := old(View());
      assert e in s.store && s.store[e] == old(e.View());
      SwitchTypeWellFormed(s, e, from, Service, to);
      RecordWritten(objects, e);
      assert objects + {e} == objects;
      hide WellFormed, Ids, Records, InsertService, EraseService;
      Same(View(), SwitchType(s, e, from, Service, to));
    }

    // ----- Filters -----

    twostate lemma Filtered(new e: Endpoint, new cmd: FilterCommand)
      requires old(Valid()) && e in old(objects) && !cmd.NamesNothing()
      requires unchanged(this`open, this`connections, this`objects, this`pendingClients, this`endpoints)
      requires unchanged(this`normalEndpoints, this`adminEndpoints, this`serviceEndpoints)
      requires unchanged(connections) && forall x | x in objects && x != e :: unchanged(x)
      requires e.View() == Applied(old(e.View()), cmd)
      requires messageSubscribers == Reindexed(old(messageSubscribers), cmd, old(e.Id()))
      ensures e in old(View()).store
      ensures Valid() && View() == Filter(old(View()), e, cmd)
    {
      ghost var s := old(View());
      assert e in s.store && s.store[e] == old(e.View());
      Reflected(e);
      FilterWellFormed(s, e, cmd);
      RecordWritten(objects, e);
      assert objects + {e} == objects;
      hide WellFormed, Ids, Records, Reindexed, Applied;
      Same(View(), Filter(s, e, cmd));
    }

    // ----- Connections -----

    // A connection that is not known yet, with the id it comes with.
    method InsertPending(conn: Connection)
      requires Valid() && conn !in connections
      modifies this`pendingClients, this`open, this`connections
      ensures Valid() && View() == Ready(old(View()), conn, conn.id)
      ensures connections == old(connections) + {conn}
    {
      hide *;
      if conn.fd !in pendingClients {
        pendingClients := pendingClients[conn.fd := conn];
      }
      open, connections := open + {conn}, connections + {conn};
      Inserted(conn);
    }

    twostate lemma Inserted(new c: Connection)
      requires old(Valid()) && c !in old(connections)
      requires unchanged(this`endpoints, this`normalEndpoints, this`adminEndpoints, this`serviceEndpoints)
      requires unchanged(this`messageSubscribers, this`objects) && unchanged(old(connections)) && unchanged(objects)
      requires open == old(open) + {c} && connections == old(connections) + {c}
      requires pendingClients == if c.fd in old(pendingClients) then old(pendingClients) else old(pendingClients)[c.fd := c]
      ensures Valid() && View() == Ready(old(View()), c, c.id)
    {
      ghost var s := old(View());
      ReadyWellFormed(s, c, c.id);
      assert Ids(connections) == old(Ids(connections))[c := c.id];
      hide WellFormed, Ids, Records;
      Same(View(), Ready(s, c, c.id));
    }

    // The connection is gone, and with it its place among the pending.
    method Forget(conn: Connection)
      requires Valid()
      modifies this`pendingClients, this`open
      ensures Valid()
      ensures View() == old(View()).(open := old(View()).open - {conn}, pending := old(View()).pending - {conn.fd})
    {
      pendingClients := pendingClients - {conn.fd};
      open := open - {conn};
      ghost var s := old(View());
      PendingWellFormed(s, conn, s.open - {conn});
      hide WellFormed, Ids, Records;
      Same(View(), s.(open := s.open - {conn}, pending := s.pending - {conn.fd}));
    }

    method ErasePending(fd: Fd)
      requires Valid()
      modifies this`pendingClients
      ensures Valid() && View() == old(View()).(pending := old(View()).pending - {fd})
    {
      pendingClients := pendingClients - {fd};
      ghost var s := old(View());
      DropPendingWellFormed(s, fd);
      hide WellFormed, Ids, Records;
      Same(View(), s.(pending := s.pending - {fd}));
    }
  }

  lemma DropPendingWellFormed(s: State, fd: Fd)
    requires WellFormed(s)
    ensures WellFormed(s.(pending := s.pending - {fd}))
  {
  }
}
