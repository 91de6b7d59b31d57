/** The five views of the endpoint population agree, and every step keeps them in agreement. */
module RegistryInvariant {
  import opened SwitchTypes
  import opened Entities
  import opened Registry

  // ----- The invariant -----

  // The endpoint objects that the registry leads to.
  ghost predicate Stored(endpoints: map<EndpointId, Endpoint>, store: map<Endpoint, Record>) {
    forall id | id in endpoints :: endpoints[id] in store
  }

  // Every endpoint is stored under its own Id(), read through an open connection, and id 0 is never a key.
  ghost predicate KeyedByOwnId(endpoints: map<EndpointId, Endpoint>, store: map<Endpoint, Record>,
                               ids: map<Connection, EndpointId>, open: set<Connection>)
    requires Stored(endpoints, store)
  {
    forall id | id in endpoints ::
      var c := store[endpoints[id]].conn;
      id != 0 && c in open && c in ids && ids[c] == id
  }

  // A role index holds exactly the endpoints of its role.
  ghost predicate RoleIndexed(index: map<EndpointId, Endpoint>, endpoints: map<EndpointId, Endpoint>,
                              store: map<Endpoint, Record>, role: Role)
    requires Stored(endpoints, store)
  {
    && (forall id | id in index :: id in endpoints && index[id] == endpoints[id] && store[endpoints[id]].role == role)
    && (forall id | id in endpoints && store[endpoints[id]].role == role :: id in index)
  }

  ghost predicate Live(endpoints: map<EndpointId, Endpoint>, store: map<Endpoint, Record>,
                       ids: map<Connection, EndpointId>, e: Endpoint)
  {
    && e in store && store[e].conn in ids
    && ids[store[e].conn] in endpoints && endpoints[ids[store[e].conn]] == e
  }

  // A live Service endpoint of type t.
  ghost predicate Serves(endpoints: map<EndpointId, Endpoint>, store: map<Endpoint, Record>,
                         ids: map<Connection, EndpointId>, t: ServiceType, e: Endpoint)
  {
    Live(endpoints, store, ids, e) && store[e].role == Service && store[e].svcType == t
  }

  // A service set holds only live Service endpoints whose current type it is.
  ghost predicate ServicesSound(services: map<ServiceType, set<Endpoint>>, endpoints: map<EndpointId, Endpoint>,
                                store: map<Endpoint, Record>, ids: map<Connection, EndpointId>)
  {
    forall t, e | t in services && e in services[t] :: Serves(endpoints, store, ids, t, e)
  }

  // A live Service endpoint is in the set of its current type.
  ghost predicate ServicesComplete(services: map<ServiceType, set<Endpoint>>, endpoints: map<EndpointId, Endpoint>,
                                   store: map<Endpoint, Record>)
    requires Stored(endpoints, store)
  {
    forall id | id in endpoints && store[endpoints[id]].role == Service ::
      InService(services, store[endpoints[id]].svcType, endpoints[id])
  }

  ghost predicate Owns(endpoints: map<EndpointId, Endpoint>, store: map<Endpoint, Record>, c: Connection, id: EndpointId)
    requires Stored(endpoints, store)
  {
    id in endpoints && store[endpoints[id]].conn == c
  }

  // An open connection is either pending, under its descriptor and with an id that is no key, or owns an endpoint.
  ghost predicate ConnectionsPlaced(open: set<Connection>, ids: map<Connection, EndpointId>, pending: map<Fd, Connection>,
                                    endpoints: map<EndpointId, Endpoint>, store: map<Endpoint, Record>)
    requires Stored(endpoints, store) && open <= ids.Keys
  {
    && (forall c, d | c in open && d in open && c.fd == d.fd :: c == d)
    && (forall fd | fd in pending :: pending[fd] in open && pending[fd].fd == fd)
    && (forall c | c in open ::
          if c.fd in pending then pending[c.fd] == c && ids[c] !in endpoints else Owns(endpoints, store, c, ids[c]))
  }

  // The subscriber index misses no live subscription and has no empty entry.
  ghost predicate SubscriptionsIndexed(index: map<MessageId, set<EndpointId>>, endpoints: map<EndpointId, Endpoint>,
                                       store: map<Endpoint, Record>)
    requires Stored(endpoints, store)
  {
    && (forall id, m | id in endpoints && m in store[endpoints[id]].subsMessages :: id in Subscribed(index, m))
    && (forall m | m in index :: index[m] != {})
  }

  ghost predicate Inv(s: State) {
    && WellFormed(s)
    && Stored(s.endpoints, s.store)
    && KeyedByOwnId(s.endpoints, s.store, s.ids, s.open)
    && RoleIndexed(s.normal, s.endpoints, s.store, Normal)
    && RoleIndexed(s.admin, s.endpoints, s.store, Admin)
    && RoleIndexed(map[], s.endpoints, s.store, Undefined)
    && ServicesSound(s.services, s.endpoints, s.store, s.ids)
    && ServicesComplete(s.services, s.endpoints, s.store)
    && ConnectionsPlaced(s.open, s.ids, s.pending, s.endpoints, s.store)
    && SubscriptionsIndexed(s.subscribers, s.endpoints, s.store)
  }

  // ----- The environment hypotheses -----

  // E1: the id is not carried by another connection that is still unregistered.
  ghost predicate NoOtherCarries(s: State, c: Connection, id: EndpointId)
    requires WellFormed(s)
  {
    forall d | d in s.open && d != c && d.fd in s.pending :: s.ids[d] != id
  }

  // What an accepted registration must meet: for a known id, the same connection (E3: no takeover); for a new one,
  // a connection that owns no endpoint yet (E2), and E1.
  ghost predicate Undisturbing(s: State, c: Connection, id: EndpointId)
    requires WellFormed(s)
  {
    if id in s.endpoints then s.store[s.endpoints[id]].conn.fd == c.fd
    else c.fd in s.pending && NoOtherCarries(s, c, id)
  }

  ghost predicate Allowed(s: State, ev: Event)
    requires WellFormed(s)
  {
    && Possible(s, ev)
    && match ev
       case ConnectionReady(_, id) => id !in s.endpoints
       case Registering(c, cmd, drawn, _, _) =>
         var id := ChosenId(cmd, drawn);
         Accepted(s, c, cmd, id) ==> Undisturbing(s, c, id)
       case _ => true
  }

  // ----- One index at a time: a new endpoint -----

  lemma AddKeyed(endpoints: map<EndpointId, Endpoint>, store: map<Endpoint, Record>, ids: map<Connection, EndpointId>,
                 open: set<Connection>, id: EndpointId, e: Endpoint, r: Record)
    requires Stored(endpoints, store) && KeyedByOwnId(endpoints, store, ids, open)
    requires id != 0 && id !in endpoints && e !in store && r.conn in open
    requires r.conn in ids && ids[r.conn] !in endpoints
    ensures Stored(endpoints[id := e], store[e := r])
    ensures KeyedByOwnId(endpoints[id := e], store[e := r], ids[r.conn := id], open)
  {
  }

  lemma AddToRole(index: map<EndpointId, Endpoint>, endpoints: map<EndpointId, Endpoint>, store: map<Endpoint, Record>,
                  role: Role, id: EndpointId, e: Endpoint, r: Record)
    requires Stored(endpoints, store) && RoleIndexed(index, endpoints, store, role)
    requires id !in endpoints && e !in store
    ensures Stored(endpoints[id := e], store[e := r])
    ensures RoleIndexed(if r.role == role then index[id := e] else index, endpoints[id := e], store[e := r], role)
  {
  }

  lemma AddServing(services: map<ServiceType, set<Endpoint>>, endpoints: map<EndpointId, Endpoint>,
                   store: map<Endpoint, Record>, ids: map<Connection, EndpointId>, id: EndpointId, e: Endpoint, r: Record)
    requires Stored(endpoints, store) && ServicesSound(services, endpoints, store, ids)
    requires id !in endpoints && e !in store && r.conn in ids && ids[r.conn] !in endpoints
    ensures var services' := if r.role == Service then InsertService(services, r.svcType, e) else services;
            ServicesSound(services', endpoints[id := e], store[e := r], ids[r.conn := id])
  {
    var services' := if r.role == Service then InsertService(services, r.svcType, e) else services;
    forall t, x | t in services' && x in services'[t]
      ensures Serves(endpoints[id := e], store[e := r], ids[r.conn := id], t, x)
    {
      if x != e {
        assert Serves(endpoints, store, ids, t, x);
      }
    }
    hide Serves;
  }

  lemma AddToServices(services: map<ServiceType, set<Endpoint>>, endpoints: map<EndpointId, Endpoint>,
                      store: map<Endpoint, Record>, id: EndpointId, e: Endpoint, r: Record)
    requires Stored(endpoints, store) && ServicesComplete(services, endpoints, store)
    requires id !in endpoints && e !in store
    ensures var services' := if r.role == Service then InsertService(services, r.svcType, e) else services;
            Stored(endpoints[id := e], store[e := r]) && ServicesComplete(services', endpoints[id := e], store[e := r])
  {
  }

  lemma AddPlaced(open: set<Connection>, ids: map<Connection, EndpointId>, pending: map<Fd, Connection>,
                  endpoints: map<EndpointId, Endpoint>, store: map<Endpoint, Record>, id: EndpointId, e: Endpoint, r: Record)
    requires Stored(endpoints, store) && open <= ids.Keys && ConnectionsPlaced(open, ids, pending, endpoints, store)
    requires id !in endpoints && e !in store && r.conn in open && r.conn.fd in pending
    requires forall d | d in open && d != r.conn && d.fd in pending :: ids[d] != id
    ensures Stored(endpoints[id := e], store[e := r])
    ensures ConnectionsPlaced(open, ids[r.conn := id], pending - {r.conn.fd}, endpoints[id := e], store[e := r])
  {
  }

  lemma AddSubscribed(index: map<MessageId, set<EndpointId>>, endpoints: map<EndpointId, Endpoint>,
                      store: map<Endpoint, Record>, id: EndpointId, e: Endpoint, r: Record)
    requires Stored(endpoints, store) && SubscriptionsIndexed(index, endpoints, store)
    requires id !in endpoints && e !in store && r.subsMessages == {}
    ensures Stored(endpoints[id := e], store[e := r])
    ensures SubscriptionsIndexed(index, endpoints[id := e], store[e := r])
  {
  }

  // ----- One index at a time: a changed endpoint -----

  ghost predicate Holds(endpoints: map<EndpointId, Endpoint>, store: map<Endpoint, Record>, id: EndpointId, e: Endpoint) {
    id in endpoints && endpoints[id] == e && e in store
  }

  lemma ChangeKeyed(endpoints: map<EndpointId, Endpoint>, store: map<Endpoint, Record>, ids: map<Connection, EndpointId>,
                    open: set<Connection>, e: Endpoint, r: Record)
    requires Stored(endpoints, store) && KeyedByOwnId(endpoints, store, ids, open)
    requires e in store && r.conn == store[e].conn
    ensures Stored(endpoints, store[e := r]) && KeyedByOwnId(endpoints, store[e := r], ids, open)
  {
  }

  ghost function MovedRole(index: map<EndpointId, Endpoint>, role: Role, was: Role, now: Role, id: EndpointId, e: Endpoint)
    : map<EndpointId, Endpoint>
  {
    if was == now then index else if was == role then index - {id} else if now == role then index[id := e] else index
  }

  lemma ChangeRole(index: map<EndpointId, Endpoint>, endpoints: map<EndpointId, Endpoint>, store: map<Endpoint, Record>,
                   ids: map<Connection, EndpointId>, open: set<Connection>, role: Role, id: EndpointId, e: Endpoint, r: Record)
    requires Stored(endpoints, store) && KeyedByOwnId(endpoints, store, ids, open)
    requires RoleIndexed(index, endpoints, store, role) && Holds(endpoints, store, id, e)
    ensures Stored(endpoints, store[e := r])
    ensures RoleIndexed(MovedRole(index, role, store[e].role, r.role, id, e), endpoints, store[e := r], role)
  {
    assert forall j | j in endpoints && endpoints[j] == e :: j == id;
  }

  // `after` differs from `before` only in where `e` sits: in the set of its new type, or nowhere.
  ghost predicate Reseated(before: map<ServiceType, set<Endpoint>>, after: map<ServiceType, set<Endpoint>>, e: Endpoint,
                           r: Record)
  {
    && (forall t, x | t in after && x in after[t] ::
          if x == e then r.role == Service && r.svcType == t else InService(before, t, x))
    && (forall t, x | t in before && x in before[t] && x != e :: InService(after, t, x))
    && (r.role == Service ==> InService(after, r.svcType, e))
  }

  lemma ChangeServices(before: map<ServiceType, set<Endpoint>>, after: map<ServiceType, set<Endpoint>>,
                       endpoints: map<EndpointId, Endpoint>, store: map<Endpoint, Record>,
                       ids: map<Connection, EndpointId>, id: EndpointId, e: Endpoint, r: Record)
    requires Stored(endpoints, store) && ServicesSound(before, endpoints, store, ids)
    requires ServicesComplete(before, endpoints, store)
    requires Live(endpoints, store, ids, e) && r.conn == store[e].conn && Reseated(before, after, e, r)
    ensures Stored(endpoints, store[e := r]) && ServicesSound(after, endpoints, store[e := r], ids)
    ensures ServicesComplete(after, endpoints, store[e := r])
  {
  }

  lemma ChangePlaced(open: set<Connection>, ids: map<Connection, EndpointId>, pending: map<Fd, Connection>,
                     endpoints: map<EndpointId, Endpoint>, store: map<Endpoint, Record>, e: Endpoint, r: Record)
    requires Stored(endpoints, store) && open <= ids.Keys && ConnectionsPlaced(open, ids, pending, endpoints, store)
    requires e in store && r.conn == store[e].conn
    ensures Stored(endpoints, store[e := r]) && ConnectionsPlaced(open, ids, pending, endpoints, store[e := r])
  {
  }

  lemma ChangeSubscribed(index: map<MessageId, set<EndpointId>>, endpoints: map<EndpointId, Endpoint>,
                         store: map<Endpoint, Record>, e: Endpoint, r: Record)
    requires Stored(endpoints, store) && SubscriptionsIndexed(index, endpoints, store)
    requires e in store && r.subsMessages == store[e].subsMessages
    ensures Stored(endpoints, store[e := r]) && SubscriptionsIndexed(index, endpoints, store[e := r])
  {
  }

  lemma FilterSubscribed(index: map<MessageId, set<EndpointId>>, endpoints: map<EndpointId, Endpoint>,
                         store: map<Endpoint, Record>, ids: map<Connection, EndpointId>, open: set<Connection>,
                         id: EndpointId, e: Endpoint, cmd: FilterCommand)
    requires Stored(endpoints, store) && SubscriptionsIndexed(index, endpoints, store)
    requires KeyedByOwnId(endpoints, store, ids, open) && Holds(endpoints, store, id, e)
    ensures Stored(endpoints, store[e := Applied(store[e], cmd)])
    ensures SubscriptionsIndexed(Reindexed(index, cmd, id), endpoints, store[e := Applied(store[e], cmd)])
  {
    assert forall j | j in endpoints && endpoints[j] == e :: j == id;
    var r := Applied(store[e], cmd);
    forall j, m | j in endpoints && m in store[e := r][endpoints[j]].subsMessages
      ensures j in Subscribed(Reindexed(index, cmd, id), m)
    {
      ReindexedAt(index, cmd, id, m);
    }
  }

  // What a filter command does to one entry of the subscriber index.
  lemma ReindexedAt(index: map<MessageId, set<EndpointId>>, cmd: FilterCommand, id: EndpointId, m: MessageId)
    ensures var after := Subscribed(Reindexed(index, cmd, id), m);
            if cmd.Subscribe? && m in cmd.messages then after == Subscribed(index, m) + {id}
            else if cmd.Unsubscribe? && m in cmd.messages then after == Subscribed(index, m) - {id}
            else after == Subscribed(index, m)
  {
    match cmd
    case Subscribe(_, messages) =>
    case Unsubscribe(_, messages) =>
    case _ =>
  }

  // ----- One index at a time: a departed endpoint -----

  lemma RemoveKeyed(endpoints: map<EndpointId, Endpoint>, store: map<Endpoint, Record>, ids: map<Connection, EndpointId>,
                    open: set<Connection>, c: Connection)
    requires Stored(endpoints, store) && KeyedByOwnId(endpoints, store, ids, open) && c in ids
    ensures Stored(endpoints - {ids[c]}, store) && KeyedByOwnId(endpoints - {ids[c]}, store, ids, open - {c})
  {
  }

  lemma RemoveFromRole(index: map<EndpointId, Endpoint>, endpoints: map<EndpointId, Endpoint>,
                       store: map<Endpoint, Record>, role: Role, id: EndpointId, e: Endpoint)
    requires Stored(endpoints, store) && RoleIndexed(index, endpoints, store, role) && Holds(endpoints, store, id, e)
    ensures Stored(endpoints - {id}, store)
    ensures RoleIndexed(if store[e].role == role then index - {id} else index, endpoints - {id}, store, role)
  {
  }

  lemma RemoveFromServices(services: map<ServiceType, set<Endpoint>>, endpoints: map<EndpointId, Endpoint>,
                           store: map<Endpoint, Record>, ids: map<Connection, EndpointId>, open: set<Connection>,
                           id: EndpointId, e: Endpoint)
    requires Stored(endpoints, store) && KeyedByOwnId(endpoints, store, ids, open) && Holds(endpoints, store, id, e)
    requires ServicesSound(services, endpoints, store, ids) && ServicesComplete(services, endpoints, store)
    ensures var r := store[e];
            var services' := if r.role == Service && r.svcType in services
                             then services[r.svcType := services[r.svcType] - {e}] else services;
            && Stored(endpoints - {id}, store)
            && ServicesSound(services', endpoints - {id}, store, ids)
            && ServicesComplete(services', endpoints - {id}, store)
  {
    assert store[e].conn in ids && ids[store[e].conn] == id;
  }

  lemma RemovePlaced(open: set<Connection>, ids: map<Connection, EndpointId>, pending: map<Fd, Connection>,
                     endpoints: map<EndpointId, Endpoint>, store: map<Endpoint, Record>, c: Connection)
    requires Stored(endpoints, store) && open <= ids.Keys && ConnectionsPlaced(open, ids, pending, endpoints, store)
    requires c in open && KeyedByOwnId(endpoints, store, ids, open)
    ensures Stored(endpoints - {ids[c]}, store)
    ensures ConnectionsPlaced(open - {c}, ids, pending - {c.fd}, endpoints - {ids[c]}, store)
  {
  }

  lemma RemoveSubscribed(index: map<MessageId, set<EndpointId>>, endpoints: map<EndpointId, Endpoint>,
                         store: map<Endpoint, Record>, id: EndpointId)
    requires Stored(endpoints, store) && SubscriptionsIndexed(index, endpoints, store)
    ensures Stored(endpoints - {id}, store) && SubscriptionsIndexed(index, endpoints - {id}, store)
  {
  }

  // ----- Steps -----

  lemma PendingCarriesNoKey(s: State, c: Connection)
    requires Inv(s) && c in s.open && c.fd in s.pending
    ensures c in s.ids && s.ids[c] !in s.endpoints
  {
  }

  lemma EnrolKeepsInv(s: State, c: Connection, cmd: RegisterCommand, id: EndpointId, e: Endpoint, token: string)
    requires Inv(s) && c in s.open && e !in s.store && id != 0 && id !in s.endpoints
    requires RoleOf(cmd.role) != Undefined && c.fd in s.pending && NoOtherCarries(s, c, id)
    ensures Inv(Enrol(s, c, cmd, id, e, token).(pending := s.pending - {c.fd}))
  {
    PendingCarriesNoKey(s, c);
    EnrolWellFormed(s, c, cmd, id, e, token);
    PendingWellFormed(Enrol(s, c, cmd, id, e, token), c, s.open);
    OpenKnown(s);
    hide WellFormed, Stored, KeyedByOwnId, RoleIndexed, ServicesSound, ServicesComplete, ConnectionsPlaced,
      SubscriptionsIndexed;
    var role := RoleOf(cmd.role);
    var r := Record(role, token, c, if role.Service? then cmd.svcType else 0, {}, {}, {}, {}, {});
    AddKeyed(s.endpoints, s.store, s.ids, s.open, id, e, r);
    AddToRole(s.normal, s.endpoints, s.store, Normal, id, e, r);
    AddToRole(s.admin, s.endpoints, s.store, Admin, id, e, r);
    AddToRole(map[], s.endpoints, s.store, Undefined, id, e, r);
    AddServing(s.services, s.endpoints, s.store, s.ids, id, e, r);
    AddToServices(s.services, s.endpoints, s.store, id, e, r);
    AddPlaced(s.open, s.ids, s.pending, s.endpoints, s.store, id, e, r);
    AddSubscribed(s.subscribers, s.endpoints, s.store, id, e, r);
  }

  lemma OpenKnown(s: State)
    requires WellFormed(s)
    ensures s.open <= s.ids.Keys
  {
  }

  // The service sets after a change of role, and after a whole re-registration.
  ghost function EnteredServices(services: map<ServiceType, set<Endpoint>>, e: Endpoint, was: Record, role: Role,
                                 t: ServiceType)
    : map<ServiceType, set<Endpoint>>
  {
    var left := if role != was.role && was.role.Service? then EraseService(services, was.svcType, e) else services;
    if role != was.role && role.Service? then InsertService(left, t, e) else left
  }

  ghost function Reseat(services: map<ServiceType, set<Endpoint>>, e: Endpoint, was: Record, role: Role, t: ServiceType)
    : map<ServiceType, set<Endpoint>>
  {
    var entered := EnteredServices(services, e, was, role, t);
    if role.Service? && t != was.svcType then InsertService(EraseService(entered, was.svcType, e), t, e) else entered
  }

  lemma InsertAt(services: map<ServiceType, set<Endpoint>>, t: ServiceType, e: Endpoint, u: ServiceType, x: Endpoint)
    ensures InService(InsertService(services, t, e), u, x) <==> InService(services, u, x) || (u == t && x == e)
  {
  }

  lemma EraseAt(services: map<ServiceType, set<Endpoint>>, t: ServiceType, e: Endpoint, u: ServiceType, x: Endpoint)
    ensures InService(EraseService(services, t, e), u, x) <==> InService(services, u, x) && !(u == t && x == e)
  {
    var rest := ServiceSet(services, t) - {e};
    assert x in rest <==> InService(services, t, x) && x != e;
  }

  lemma ReseatAt(services: map<ServiceType, set<Endpoint>>, e: Endpoint, was: Record, r: Record, t: ServiceType,
                 u: ServiceType, x: Endpoint)
    requires InService(services, u, e) <==> was.role == Service && was.svcType == u
    requires r.svcType == if r.role.Service? then t else was.svcType
    ensures InService(Reseat(services, e, was, r.role, t), u, x)
            <==> if x == e then r.role == Service && r.svcType == u else InService(services, u, x)
  {
    hide InService, InsertService, EraseService;
    var role := r.role;
    var left := if role != was.role && was.role.Service? then EraseService(services, was.svcType, e) else services;
    var entered := if role != was.role && role.Service? then InsertService(left, t, e) else left;
    EraseAt(services, was.svcType, e, u, x);
    InsertAt(left, t, e, u, x);
    EraseAt(entered, was.svcType, e, u, x);
    InsertAt(EraseService(entered, was.svcType, e), t, e, u, x);
  }

  lemma ReseatReseats(services: map<ServiceType, set<Endpoint>>, e: Endpoint, was: Record, r: Record, t: ServiceType)
    requires forall u :: InService(services, u, e) <==> was.role == Service && was.svcType == u
    requires r.svcType == if r.role.Service? then t else was.svcType
    ensures Reseated(services, Reseat(services, e, was, r.role, t), e, r)
  {
    hide Reseat;
    var after := Reseat(services, e, was, r.role, t);
    forall u, x | u in after && x in after[u]
      ensures if x == e then r.role == Service && r.svcType == u else InService(services, u, x)
    {
      ReseatAt(services, e, was, r, t, u, x);
    }
    forall u, x | u in services && x in services[u] && x != e ensures InService(after, u, x) {
      ReseatAt(services, e, was, r, t, u, x);
    }
    ReseatAt(services, e, was, r, t, r.svcType, e);
  }

  // The record a re-registration leaves.
  ghost function Rejoined(was: Record, cmd: RegisterCommand, token: string, renewed: bool): Record {
    var role := RoleOf(cmd.role);
    was.(role := role, token := if renewed then token else was.token,
         svcType := if role.Service? then cmd.svcType else was.svcType)
  }

  lemma UpdatedTwice(store: map<Endpoint, Record>, e: Endpoint, r1: Record, r2: Record)
    ensures store[e := r1][e := r2] == store[e := r2]
  {
  }

  lemma SwitchRoleParts(s: State, id: EndpointId, e: Endpoint, role: Role, t: ServiceType)
    requires e in s.store
    ensures var s' := SwitchRole(s, id, e, role, t);
            var was := s.store[e];
            && s'.normal == MovedRole(s.normal, Normal, was.role, role, id, e)
            && s'.admin == MovedRole(s.admin, Admin, was.role, role, id, e)
            && s'.services == EnteredServices(s.services, e, was, role, t)
  {
    hide InsertService, EraseService;
  }

  // With an unchanged connection, what re-registering does to the state, index by index.
  lemma RejoinParts(s: State, c: Connection, cmd: RegisterCommand, id: EndpointId, token: string)
    requires WellFormed(s) && id in s.endpoints && s.store[s.endpoints[id]].conn.fd == c.fd
    ensures var e, role := s.endpoints[id], RoleOf(cmd.role);
            var was := s.store[e];
            Rejoin(s, c, cmd, id, token)
            == s.(store := s.store[e := Rejoined(was, cmd, token, TokenMatches(s, e, cmd) || role != was.role)],
                  normal := MovedRole(s.normal, Normal, was.role, role, id, e),
                  admin := MovedRole(s.admin, Admin, was.role, role, id, e),
                  services := Reseat(s.services, e, was, role, cmd.svcType))
  {
    MemberStored(s, id);
    hide InsertService, EraseService, WellFormed, RoleOf, TokenMatches, SwitchRole, MovedRole, EnteredServices;
    var e, role := s.endpoints[id], RoleOf(cmd.role);
    var was := s.store[e];
    var now := Reconnected(was, c, role, TokenMatches(s, e, cmd), token);
    var s1 := s.(store := s.store[e := now]);
    SwitchRoleFrame(s1, id, e, role, cmd.svcType);
    SwitchRoleParts(s1, id, e, role, cmd.svcType);
    EnteredSame(s.services, e, was, now, role, cmd.svcType);
    UpdatedTwice(s.store, e, now, now.(role := role));
    UpdatedTwice(s.store, e, now.(role := role), now.(role := role).(svcType := cmd.svcType));
  }

  lemma EnteredSame(services: map<ServiceType, set<Endpoint>>, e: Endpoint, was: Record, now: Record, role: Role,
                    t: ServiceType)
    requires was.role == now.role && was.svcType == now.svcType
    ensures EnteredServices(services, e, was, role, t) == EnteredServices(services, e, now, role, t)
  {
  }

  lemma KeyFacts(s: State, id: EndpointId)
    requires Inv(s) && id in s.endpoints
    ensures var e := s.endpoints[id];
            && Holds(s.endpoints, s.store, id, e) && Live(s.endpoints, s.store, s.ids, e)
            && s.store[e].conn in s.ids && IdOf(s, e) == id && s.store[e].role != Undefined
  {
  }

  lemma SeatFacts(s: State, id: EndpointId, t: ServiceType)
    requires Inv(s) && id in s.endpoints
    ensures var e := s.endpoints[id];
            e in s.store && (InService(s.services, t, e) <==> s.store[e].role == Service && s.store[e].svcType == t)
  {
  }

  // After re-registering with role `role` and type `t`; with the old role and type nothing moves.
  lemma ReseatFacts(s: State, id: EndpointId, r: Record, t: ServiceType)
    requires Inv(s) && id in s.endpoints && Holds(s.endpoints, s.store, id, s.endpoints[id])
    requires r.svcType == if r.role.Service? then t else s.store[s.endpoints[id]].svcType
    ensures Reseated(s.services, Reseat(s.services, s.endpoints[id], s.store[s.endpoints[id]], r.role, t), s.endpoints[id], r)
  {
    var e := s.endpoints[id];
    forall u ensures InService(s.services, u, e) <==> s.store[e].role == Service && s.store[e].svcType == u {
      SeatFacts(s, id, u);
    }
    hide Inv, Reseat, Reseated;
    ReseatReseats(s.services, e, s.store[e], r, t);
  }

  lemma OwnerIsNotPending(s: State, c: Connection, id: EndpointId)
    requires Inv(s) && c in s.open && id in s.endpoints && s.store[s.endpoints[id]].conn.fd == c.fd
    ensures s.store[s.endpoints[id]].conn == c && s.ids[c] == id && c.fd !in s.pending
  {
  }

  lemma RejoinKeepsInv(s: State, c: Connection, cmd: RegisterCommand, id: EndpointId, token: string)
    requires Inv(s) && c in s.open && id in s.endpoints && RoleOf(cmd.role) != Undefined
    requires s.store[s.endpoints[id]].conn.fd == c.fd
    ensures Inv(Rejoin(s, c, cmd, id, token).(pending := s.pending - {c.fd}))
  {
    KeyFacts(s, id);
    var e := s.endpoints[id];
    var was := s.store[e];
    OwnerIsNotPending(s, c, id);
    assert s.pending - {c.fd} == s.pending;
    hide WellFormed, Stored, KeyedByOwnId, RoleIndexed, ServicesSound, ServicesComplete, ConnectionsPlaced,
      SubscriptionsIndexed, Reseated, Live, Holds, InService, Rejoin, Reseat;
    RejoinParts(s, c, cmd, id, token);
    RejoinWellFormed(s, c, cmd, id, token);
    var r := Rejoined(was, cmd, token, TokenMatches(s, e, cmd) || RoleOf(cmd.role) != was.role);
    ReseatFacts(s, id, r, cmd.svcType);
    ChangeEverywhere(s, id, r, Reseat(s.services, e, was, r.role, cmd.svcType));
    ChangeSubscribed(s.subscribers, s.endpoints, s.store, e, r);
  }

  // All the views but the subscriber index, after the record of one endpoint changed.
  lemma ChangeEverywhere(s: State, id: EndpointId, r: Record, services: map<ServiceType, set<Endpoint>>)
    requires Inv(s) && id in s.endpoints && Holds(s.endpoints, s.store, id, s.endpoints[id])
    requires r.conn == s.store[s.endpoints[id]].conn && r.role != Undefined
    requires Reseated(s.services, services, s.endpoints[id], r)
    ensures var e, store := s.endpoints[id], s.store[s.endpoints[id] := r];
            && Stored(s.endpoints, store) && KeyedByOwnId(s.endpoints, store, s.ids, s.open)
            && RoleIndexed(MovedRole(s.normal, Normal, s.store[e].role, r.role, id, e), s.endpoints, store, Normal)
            && RoleIndexed(MovedRole(s.admin, Admin, s.store[e].role, r.role, id, e), s.endpoints, store, Admin)
            && RoleIndexed(map[], s.endpoints, store, Undefined)
            && ServicesSound(services, s.endpoints, store, s.ids) && ServicesComplete(services, s.endpoints, store)
            && s.open <= s.ids.Keys && ConnectionsPlaced(s.open, s.ids, s.pending, s.endpoints, store)
  {
    KeyFacts(s, id);
    OpenKnown(s);
    hide WellFormed, Stored, KeyedByOwnId, RoleIndexed, ServicesSound, ServicesComplete, ConnectionsPlaced,
      SubscriptionsIndexed, Reseated, Live, Holds, InService, MovedRole;
    var e := s.endpoints[id];
    ChangeKeyed(s.endpoints, s.store, s.ids, s.open, e, r);
    ChangeRole(s.normal, s.endpoints, s.store, s.ids, s.open, Normal, id, e, r);
    ChangeRole(s.admin, s.endpoints, s.store, s.ids, s.open, Admin, id, e, r);
    RoleStaysDefined(s.endpoints, s.store, e, r);
    ChangeServices(s.services, services, s.endpoints, s.store, s.ids, id, e, r);
    ChangePlaced(s.open, s.ids, s.pending, s.endpoints, s.store, e, r);
  }

  lemma RoleStaysDefined(endpoints: map<EndpointId, Endpoint>, store: map<Endpoint, Record>, e: Endpoint, r: Record)
    requires Stored(endpoints, store) && RoleIndexed(map[], endpoints, store, Undefined) && r.role != Undefined
    ensures Stored(endpoints, store[e := r]) && RoleIndexed(map[], endpoints, store[e := r], Undefined)
  {
  }

  lemma FilterKeepsInv(s: State, id: EndpointId, cmd: FilterCommand)
    requires Inv(s) && id in s.endpoints
    ensures Inv(Filter(s, s.endpoints[id], cmd))
  {
    KeyFacts(s, id);
    if !cmd.NamesNothing() {
      var e := s.endpoints[id];
      var r := Applied(s.store[e], cmd);
      AppliedKeeps(s.store[e], cmd);
      FilterWellFormed(s, e, cmd);
      hide WellFormed, Stored, KeyedByOwnId, RoleIndexed, ServicesSound, ServicesComplete, ConnectionsPlaced,
        SubscriptionsIndexed, Reseated, Live, Holds, InService, Reindexed, Applied;
      assert Reseat(s.services, e, s.store[e], r.role, r.svcType) == s.services;
      ReseatFacts(s, id, r, r.svcType);
      ChangeEverywhere(s, id, r, s.services);
      FilterSubscribed(s.subscribers, s.endpoints, s.store, s.ids, s.open, id, e, cmd);
    }
  }

  lemma AppliedKeeps(r: Record, cmd: FilterCommand)
    ensures var r' := Applied(r, cmd);
            r'.role == r.role && r'.token == r.token && r'.conn == r.conn && r'.svcType == r.svcType
  {
  }

  lemma ReadyKeepsInv(s: State, c: Connection, id: EndpointId)
    requires Inv(s) && c !in s.ids && (forall d | d in s.open :: d.fd != c.fd) && id !in s.endpoints
    ensures Inv(Ready(s, c, id))
  {
    ReadyWellFormed(s, c, id);
    OpenKnown(s);
    ReadyPlaced(s.open, s.ids, s.pending, s.endpoints, s.store, c, id);
    ReadyKeyed(s.endpoints, s.store, s.ids, s.open, c, id);
    ReadySound(s.services, s.endpoints, s.store, s.ids, c, id);
    PendingFresh(s, c);
    hide WellFormed, Stored, KeyedByOwnId, RoleIndexed, ServicesSound, ServicesComplete, ConnectionsPlaced,
      SubscriptionsIndexed;
  }

  lemma PendingFresh(s: State, c: Connection)
    requires Inv(s) && forall d | d in s.open :: d.fd != c.fd
    ensures c.fd !in s.pending
  {
  }

  lemma ReadyPlaced(open: set<Connection>, ids: map<Connection, EndpointId>, pending: map<Fd, Connection>,
                    endpoints: map<EndpointId, Endpoint>, store: map<Endpoint, Record>, c: Connection, id: EndpointId)
    requires Stored(endpoints, store) && open <= ids.Keys && ConnectionsPlaced(open, ids, pending, endpoints, store)
    requires c !in ids && (forall d | d in open :: d.fd != c.fd) && id !in endpoints
    ensures ConnectionsPlaced(open + {c}, ids[c := id], pending[c.fd := c], endpoints, store)
  {
  }

  lemma ReadyKeyed(endpoints: map<EndpointId, Endpoint>, store: map<Endpoint, Record>, ids: map<Connection, EndpointId>,
                   open: set<Connection>, c: Connection, id: EndpointId)
    requires Stored(endpoints, store) && KeyedByOwnId(endpoints, store, ids, open) && c !in ids
    ensures KeyedByOwnId(endpoints, store, ids[c := id], open + {c})
  {
  }

  lemma ReadySound(services: map<ServiceType, set<Endpoint>>, endpoints: map<EndpointId, Endpoint>,
                   store: map<Endpoint, Record>, ids: map<Connection, EndpointId>, c: Connection, id: EndpointId)
    requires ServicesSound(services, endpoints, store, ids) && c !in ids
    ensures ServicesSound(services, endpoints, store, ids[c := id])
  {
    forall t, e | t in services && e in services[t] ensures Serves(endpoints, store, ids[c := id], t, e) {
      assert Serves(endpoints, store, ids, t, e);
    }
    hide Serves;
  }

  // The role indexes and service sets after the removal step.
  lemma RemoveEverywhere(s: State, id: EndpointId)
    requires Inv(s) && id in s.endpoints
    ensures var s' := RemoveEndpoint(s, id);
            && s'.endpoints == s.endpoints - {id} && s'.store == s.store && s'.ids == s.ids
            && s'.subscribers == s.subscribers && Stored(s'.endpoints, s.store)
            && RoleIndexed(s'.normal, s'.endpoints, s.store, Normal)
            && RoleIndexed(s'.admin, s'.endpoints, s.store, Admin)
            && RoleIndexed(map[], s'.endpoints, s.store, Undefined)
            && ServicesSound(s'.services, s'.endpoints, s.store, s.ids)
            && ServicesComplete(s'.services, s'.endpoints, s.store)
            && SubscriptionsIndexed(s.subscribers, s'.endpoints, s.store)
  {
    KeyFacts(s, id);
    hide WellFormed, Stored, KeyedByOwnId, RoleIndexed, ServicesSound, ServicesComplete, ConnectionsPlaced,
      SubscriptionsIndexed, Live, Holds, InService;
    var e := s.endpoints[id];
    RemoveFromRole(s.normal, s.endpoints, s.store, Normal, id, e);
    RemoveFromRole(s.admin, s.endpoints, s.store, Admin, id, e);
    RemoveFromRole(map[], s.endpoints, s.store, Undefined, id, e);
    RemoveFromServices(s.services, s.endpoints, s.store, s.ids, s.open, id, e);
    RemoveSubscribed(s.subscribers, s.endpoints, s.store, id);
  }

  lemma ClosedKeepsInv(s: State, c: Connection)
    requires Inv(s) && c in s.open
    ensures Inv(Closed(s, c))
  {
    OpenKnown(s);
    var id := s.ids[c];
    hide WellFormed, Stored, KeyedByOwnId, RoleIndexed, ServicesSound, ServicesComplete, ConnectionsPlaced,
      SubscriptionsIndexed;
    RemoveWellFormed(s, id);
    RemoveFrame(s, id);
    PendingWellFormed(RemoveEndpoint(s, id), c, s.open - {c});
    RemoveKeyed(s.endpoints, s.store, s.ids, s.open, c);
    RemovePlaced(s.open, s.ids, s.pending, s.endpoints, s.store, c);
    if id in s.endpoints {
      RemoveEverywhere(s, id);
      hide RemoveEndpoint;
    } else {
      assert s.endpoints - {id} == s.endpoints;
    }
  }

  /** Under E1, E2 and E3 every step keeps all five views in agreement. */
  lemma NextKeepsInv(s: State, ev: Event)
    requires Inv(s) && Allowed(s, ev)
    ensures Inv(Next(s, ev))
  {
    match ev
    case ConnectionReady(c, id) => ReadyKeepsInv(s, c, id);
    case Registering(c, cmd, drawn, created, token) =>
      var id := ChosenId(cmd, drawn);
      if Accepted(s, c, cmd, id) {
        if id in s.endpoints {
          RejoinKeepsInv(s, c, cmd, id, token);
        } else {
          EnrolKeepsInv(s, c, cmd, id, created, token);
        }
      }
    case Filtering(c, filter) =>
      if s.ids[c] in s.endpoints {
        FilterKeepsInv(s, s.ids[c], filter);
      }
    case ConnectionClosed(c) => ClosedKeepsInv(s, c);
    case _ =>
  }
}
