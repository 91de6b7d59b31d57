/** The switch server's state and the effect of every step on it. */
module Registry {
  import opened SwitchTypes
  import opened Entities

  // `ids` and `store` are the fields of the connections and endpoints themselves; the rest is `SwitchContext`.
  datatype State = State(open: set<Connection>, ids: map<Connection, EndpointId>, store: map<Endpoint, Record>,
                         pending: map<Fd, Connection>,
                         endpoints: map<EndpointId, Endpoint>,
                         normal: map<EndpointId, Endpoint>, admin: map<EndpointId, Endpoint>,
                         services: map<ServiceType, set<Endpoint>>,
                         subscribers: map<MessageId, set<EndpointId>>)

  const EMPTY := State({}, map[], map[], map[], map[], map[], map[], map[], map[])

  // Every reference kept in the state leads to an object of the state.
  ghost predicate WellFormed(s: State) {
    && s.open <= s.ids.Keys
    && (forall fd | fd in s.pending :: s.pending[fd] in s.ids)
    && (forall id | id in s.endpoints :: s.endpoints[id] in s.store)
    && (forall id | id in s.normal :: s.normal[id] in s.store)
    && (forall id | id in s.admin :: s.admin[id] in s.store)
    && (forall t, e | t in s.services && e in s.services[t] :: e in s.store)
    && (forall e | e in s.store :: s.store[e].conn in s.ids)
  }

  // Endpoint::Id() reads through the connection.
  function IdOf(s: State, e: Endpoint): EndpointId
    requires e in s.store && s.store[e].conn in s.ids
  {
    s.ids[s.store[e].conn]
  }

  // ----- Service sets -----

  predicate InService(services: map<ServiceType, set<Endpoint>>, t: ServiceType, e: Endpoint) {
    t in services && e in services[t]
  }

  function ServiceSet(services: map<ServiceType, set<Endpoint>>, t: ServiceType): set<Endpoint> {
    if t in services then services[t] else {}
  }

  function InsertService(services: map<ServiceType, set<Endpoint>>, t: ServiceType, e: Endpoint)
    : map<ServiceType, set<Endpoint>>
  {
    services[t := ServiceSet(services, t) + {e}]
  }

  // Erase, then drop the type when its set has become empty.
  function EraseService(services: map<ServiceType, set<Endpoint>>, t: ServiceType, e: Endpoint)
    : map<ServiceType, set<Endpoint>>
  {
    var rest := ServiceSet(services, t) - {e};
    if rest == {} then services - {t} else services[t := rest]
  }

  // ----- Registration -----

  // `authorized`: the access code given is not empty and is the one configured for the role.
  datatype RegisterCommand =
    RegisterCommand(id: EndpointId, role: Byte, authorized: bool, token: string, svcType: ServiceType)

  function RoleOf(role: Byte): Role {
    if role == 1 then Normal else if role == 2 then Admin else if role == 3 then Service else Undefined
  }

  predicate Authenticated(cmd: RegisterCommand) {
    RoleOf(cmd.role) != Undefined && cmd.authorized
  }

  predicate TokenMatches(s: State, e: Endpoint, cmd: RegisterCommand)
    requires e in s.store
  {
    cmd.token != "" && cmd.token == s.store[e].token
  }

  // `id` is the id asked for, or the one allocated when that is 0.
  ghost predicate Accepted(s: State, c: Connection, cmd: RegisterCommand, id: EndpointId)
    requires WellFormed(s)
  {
    && Authenticated(cmd)
    && (id in s.endpoints ==>
          s.store[s.endpoints[id]].conn.fd == c.fd || TokenMatches(s, s.endpoints[id], cmd))
  }

  ghost function Enrol(s: State, c: Connection, cmd: RegisterCommand, id: EndpointId, e: Endpoint, token: string)
    : State
  {
    var role := RoleOf(cmd.role);
    var svcType := if role.Service? then cmd.svcType else 0;
    s.(ids := s.ids[c := id],
       store := s.store[e := Record(role, token, c, svcType, {}, {}, {}, {}, {})],
       endpoints := s.endpoints[id := e],
       normal := if role.Normal? then s.normal[id := e] else s.normal,
       admin := if role.Admin? then s.admin[id := e] else s.admin,
       services := if role.Service? then InsertService(s.services, svcType, e) else s.services)
  }

  ghost function LeaveRole(s: State, id: EndpointId, e: Endpoint): State
    requires e in s.store
  {
    var was := s.store[e];
    s.(normal := if was.role.Normal? then s.normal - {id} else s.normal,
       admin := if was.role.Admin? then s.admin - {id} else s.admin,
       services := if was.role.Service? then EraseService(s.services, was.svcType, e) else s.services)
  }

  ghost function EnterRole(s: State, id: EndpointId, e: Endpoint, role: Role, svcType: ServiceType): State
    requires e in s.store
  {
    s.(store := s.store[e := s.store[e].(role := role)],
       normal := if role.Normal? then s.normal[id := e] else s.normal,
       admin := if role.Admin? then s.admin[id := e] else s.admin,
       services := if role.Service? then InsertService(s.services, svcType, e) else s.services)
  }

  ghost function SwitchRole(s: State, id: EndpointId, e: Endpoint, role: Role, svcType: ServiceType): State
    requires e in s.store
  {
    if role == s.store[e].role then s else EnterRole(LeaveRole(s, id, e), id, e, role, svcType)
  }

  // `from` is the service type the endpoint had before the command.
  ghost function SwitchType(s: State, e: Endpoint, from: ServiceType, role: Role, to: ServiceType): State
    requires e in s.store
  {
    if !role.Service? || to == from then s
    else s.(services := InsertService(EraseService(s.services, from, e), to, e),
            store := s.store[e := s.store[e].(svcType := to)])
  }

  // The connection and the token: taken over from another descriptor, renewed by a matching token or a new role.
  function Reconnected(was: Record, c: Connection, role: Role, matches: bool, token: string): Record {
    was.(conn := if was.conn.fd != c.fd then c else was.conn,
         token := if matches || role != was.role then token else was.token)
  }

  ghost function Rejoin(s: State, c: Connection, cmd: RegisterCommand, id: EndpointId, token: string): State
    requires WellFormed(s) && id in s.endpoints
  {
    var e, role := s.endpoints[id], RoleOf(cmd.role);
    var was := s.store[e];
    var s1 := s.(store := s.store[e := Reconnected(was, c, role, TokenMatches(s, e, cmd), token)]);
    SwitchType(SwitchRole(s1, id, e, role, cmd.svcType), e, was.svcType, role, cmd.svcType)
  }

  ghost function Register(s: State, c: Connection, cmd: RegisterCommand, id: EndpointId, e: Endpoint, token: string)
    : State
    requires WellFormed(s)
  {
    if !Accepted(s, c, cmd, id) then s
    else
      var s' := if id in s.endpoints then Rejoin(s, c, cmd, id, token) else Enrol(s, c, cmd, id, e, token);
      s'.(pending := s.pending - {c.fd})
  }

  // ----- Filters and the subscriber index -----

  function Subscribed(index: map<MessageId, set<EndpointId>>, m: MessageId): set<EndpointId> {
    if m in index then index[m] else {}
  }

  function AddSubscriber(index: map<MessageId, set<EndpointId>>, messages: set<MessageId>, id: EndpointId)
    : map<MessageId, set<EndpointId>>
  {
    map m | m in index.Keys + messages :: Subscribed(index, m) + if m in messages then {id} else {}
  }

  // An entry that the erasure leaves empty goes too.
  function DropSubscriber(index: map<MessageId, set<EndpointId>>, messages: set<MessageId>, id: EndpointId)
    : map<MessageId, set<EndpointId>>
  {
    map m | m in index && !(m in messages && index[m] - {id} == {}) :: if m in messages then index[m] - {id} else index[m]
  }

  function Reindexed(index: map<MessageId, set<EndpointId>>, cmd: FilterCommand, id: EndpointId)
    : map<MessageId, set<EndpointId>>
  {
    match cmd
    case Subscribe(_, messages) => AddSubscriber(index, Elements(messages), id)
    case Unsubscribe(_, messages) => DropSubscriber(index, Elements(messages), id)
    case _ => index
  }

  ghost function Filter(s: State, e: Endpoint, cmd: FilterCommand): State
    requires WellFormed(s) && e in s.store
  {
    if cmd.NamesNothing() then s
    else s.(store := s.store[e := Applied(s.store[e], cmd)],
            subscribers := Reindexed(s.subscribers, cmd, IdOf(s, e)))
  }

  // ----- Connections coming and going -----

  ghost function Ready(s: State, c: Connection, id: EndpointId): State {
    s.(open := s.open + {c}, ids := s.ids[c := id],
       pending := if c.fd in s.pending then s.pending else s.pending[c.fd := c])
  }

  ghost function RemoveEndpoint(s: State, id: EndpointId): State
    requires WellFormed(s)
  {
    if id !in s.endpoints then s
    else
      var e := s.endpoints[id];
      var r, own := s.store[e], IdOf(s, e);
      s.(endpoints := s.endpoints - {id},
         normal := if r.role.Normal? then s.normal - {own} else s.normal,
         admin := if r.role.Admin? then s.admin - {own} else s.admin,
         services := if r.role.Service? && r.svcType in s.services
                     then s.services[r.svcType := s.services[r.svcType] - {e}] else s.services)
  }

  ghost function Closed(s: State, c: Connection): State
    requires WellFormed(s) && c in s.open
  {
    var s' := RemoveEndpoint(s, s.ids[c]);
    s'.(open := s.open - {c}, pending := s.pending - {c.fd})
  }

  // ----- Steps -----

  // `drawn`, `created` and `token` are what the id generator, the allocator and the token generator supply;
  // `chosen` is the service endpoint that the pointer-ordered set happened to yield.
  datatype Event =
    | ConnectionReady(c: Connection, id: EndpointId)
    | Registering(c: Connection, cmd: RegisterCommand, drawn: EndpointId, created: Endpoint, token: string)
    | Filtering(c: Connection, filter: FilterCommand)
    | Publishing(c: Connection)
    | PublishingTo(c: Connection, msgType: MessageId, targets: seq<EndpointId>)
    | ServiceRequest(c: Connection, header: ServiceHeader, chosen: Option<Endpoint>)
    | ServiceResponse(c: Connection, header: ServiceHeader)
    | Kickout(c: Connection, targets: seq<EndpointId>)
    | ConnectionClosed(c: Connection)

  function ChosenId(cmd: RegisterCommand, drawn: EndpointId): EndpointId {
    if cmd.id == 0 then drawn else cmd.id
  }

  // What the operating system, the allocators and the event loop guarantee: new objects are new, the descriptor of a
  // new connection is not that of an open one, the id generator yields an unused id in 1..65535.
  ghost predicate Possible(s: State, ev: Event) {
    match ev
    case ConnectionReady(c, id) => c !in s.ids && forall d | d in s.open :: d.fd != c.fd
    case Registering(c, cmd, drawn, created, _) =>
      && c in s.open
      && (cmd.id == 0 ==> 1 <= drawn <= 65535 && drawn !in s.endpoints)
      && (ChosenId(cmd, drawn) !in s.endpoints ==> created !in s.store)
    case _ => ev.c in s.open
  }

  ghost function Next(s: State, ev: Event): State
    requires WellFormed(s) && Possible(s, ev)
  {
    match ev
    case ConnectionReady(c, id) => Ready(s, c, id)
    case Registering(c, cmd, drawn, created, token) =>
      Register(s, c, cmd, ChosenId(cmd, drawn), created, token)
    case Filtering(c, filter) =>
      if s.ids[c] in s.endpoints then Filter(s, s.endpoints[s.ids[c]], filter) else s
    case ConnectionClosed(c) => Closed(s, c)
    case _ => s
  }

  // ----- Every step keeps the references inside the state -----

  lemma StoreWellFormed(s: State, e: Endpoint, r: Record)
    requires WellFormed(s) && r.conn in s.ids
    ensures WellFormed(s.(store := s.store[e := r]))
  {
  }

  lemma InsertWellFormed(s: State, t: ServiceType, e: Endpoint)
    requires WellFormed(s) && e in s.store
    ensures WellFormed(s.(services := InsertService(s.services, t, e)))
  {
  }

  lemma EraseWellFormed(s: State, t: ServiceType, e: Endpoint)
    requires WellFormed(s)
    ensures WellFormed(s.(services := EraseService(s.services, t, e)))
  {
  }

  lemma LeaveWellFormed(s: State, id: EndpointId, e: Endpoint)
    requires WellFormed(s) && e in s.store
    ensures WellFormed(LeaveRole(s, id, e))
  {
    DropRoleWellFormed(s, id);
    EraseWellFormed(s, s.store[e].svcType, e);
    hide WellFormed, EraseService;
  }

  lemma DropRoleWellFormed(s: State, id: EndpointId)
    requires WellFormed(s)
    ensures WellFormed(s.(normal := s.normal - {id})) && WellFormed(s.(admin := s.admin - {id}))
  {
  }

  lemma AddRoleWellFormed(s: State, id: EndpointId, e: Endpoint)
    requires WellFormed(s) && e in s.store
    ensures WellFormed(s.(normal := s.normal[id := e])) && WellFormed(s.(admin := s.admin[id := e]))
  {
  }

  lemma EnterWellFormed(s: State, id: EndpointId, e: Endpoint, role: Role, t: ServiceType)
    requires WellFormed(s) && e in s.store
    ensures WellFormed(EnterRole(s, id, e, role, t))
  {
    InsertWellFormed(s, t, e);
    AddRoleWellFormed(s, id, e);
    assert s.store[e].conn in s.ids;
    hide WellFormed, InsertService;
    var s' := match role
      case Normal => s.(normal := s.normal[id := e])
      case Admin => s.(admin := s.admin[id := e])
      case Service => s.(services := InsertService(s.services, t, e))
      case Undefined => s;
    StoreWellFormed(s', e, s.store[e].(role := role));
  }

  lemma SwitchRoleWellFormed(s: State, id: EndpointId, e: Endpoint, role: Role, t: ServiceType)
    requires WellFormed(s) && e in s.store
    ensures WellFormed(SwitchRole(s, id, e, role, t))
  {
    LeaveWellFormed(s, id, e);
    hide WellFormed, EraseService;
    EnterWellFormed(LeaveRole(s, id, e), id, e, role, t);
  }

  // Switching the role touches the role field, the role indexes and the service sets.
  lemma SwitchRoleFrame(s: State, id: EndpointId, e: Endpoint, role: Role, t: ServiceType)
    requires e in s.store
    ensures var s' := SwitchRole(s, id, e, role, t);
            && s' == s.(store := s.store[e := s.store[e].(role := role)], normal := s'.normal, admin := s'.admin,
                        services := s'.services)
  {
    hide InsertService, EraseService;
    assert s.store[e := s.store[e]] == s.store;
  }

  lemma SwitchTypeWellFormed(s: State, e: Endpoint, from: ServiceType, role: Role, to: ServiceType)
    requires WellFormed(s) && e in s.store
    ensures WellFormed(SwitchType(s, e, from, role, to))
  {
    EraseWellFormed(s, from, e);
    var s1 := s.(services := EraseService(s.services, from, e));
    InsertWellFormed(s1, to, e);
    assert s.store[e].conn in s.ids;
    hide WellFormed;
    StoreWellFormed(s1.(services := InsertService(s1.services, to, e)), e, s.store[e].(svcType := to));
  }

  lemma RejoinWellFormed(s: State, c: Connection, cmd: RegisterCommand, id: EndpointId, token: string)
    requires WellFormed(s) && c in s.ids && id in s.endpoints
    ensures WellFormed(Rejoin(s, c, cmd, id, token))
  {
    MemberStored(s, id);
    hide WellFormed, SwitchRole, SwitchType;
    var e, role := s.endpoints[id], RoleOf(cmd.role);
    var was := s.store[e];
    var now := Reconnected(was, c, role, TokenMatches(s, e, cmd), token);
    var s1 := s.(store := s.store[e := now]);
    StoreWellFormed(s, e, now);
    SwitchRoleWellFormed(s1, id, e, role, cmd.svcType);
    SwitchRoleFrame(s1, id, e, role, cmd.svcType);
    SwitchTypeWellFormed(SwitchRole(s1, id, e, role, cmd.svcType), e, was.svcType, role, cmd.svcType);
  }

  lemma MemberStored(s: State, id: EndpointId)
    requires WellFormed(s) && id in s.endpoints
    ensures s.endpoints[id] in s.store && s.store[s.endpoints[id]].conn in s.ids
  {
  }

  lemma NewcomerWellFormed(s: State, c: Connection, id: EndpointId, e: Endpoint, r: Record)
    requires WellFormed(s) && e !in s.store && r.conn in s.ids.Keys + {c}
    ensures WellFormed(s.(ids := s.ids[c := id], store := s.store[e := r], endpoints := s.endpoints[id := e]))
  {
  }

  lemma EnrolWellFormed(s: State, c: Connection, cmd: RegisterCommand, id: EndpointId, e: Endpoint, token: string)
    requires WellFormed(s) && c in s.ids && e !in s.store
    ensures WellFormed(Enrol(s, c, cmd, id, e, token))
  {
    var role := RoleOf(cmd.role);
    var t := if role.Service? then cmd.svcType else 0;
    var r := Record(role, token, c, t, {}, {}, {}, {}, {});
    NewcomerWellFormed(s, c, id, e, r);
    var s1 := s.(ids := s.ids[c := id], store := s.store[e := r], endpoints := s.endpoints[id := e]);
    AddRoleWellFormed(s1, id, e);
    InsertWellFormed(s1, t, e);
    hide WellFormed, InsertService;
  }

  lemma RemoveWellFormed(s: State, id: EndpointId)
    requires WellFormed(s)
    ensures WellFormed(RemoveEndpoint(s, id))
  {
    if id in s.endpoints {
      var e := s.endpoints[id];
      MemberStored(s, id);
      DropRoleWellFormed(s, IdOf(s, e));
      TakeServiceWellFormed(s, s.store[e].svcType, e);
      forall s' | WellFormed(s') ensures WellFormed(s'.(endpoints := s'.endpoints - {id})) {
        DropKeyWellFormed(s', id);
      }
      hide WellFormed;
    }
  }

  lemma TakeServiceWellFormed(s: State, t: ServiceType, e: Endpoint)
    requires WellFormed(s)
    ensures t in s.services ==> WellFormed(s.(services := s.services[t := s.services[t] - {e}]))
  {
  }

  lemma DropKeyWellFormed(s: State, id: EndpointId)
    requires WellFormed(s)
    ensures WellFormed(s.(endpoints := s.endpoints - {id}))
  {
  }

  lemma RemoveFrame(s: State, id: EndpointId)
    requires WellFormed(s)
    ensures var r := RemoveEndpoint(s, id);
            r.ids == s.ids && r.open == s.open && r.pending == s.pending && r.store == s.store
  {
    hide WellFormed;
  }

  lemma PendingWellFormed(s: State, c: Connection, o: set<Connection>)
    requires WellFormed(s) && o <= s.open
    ensures WellFormed(s.(open := o, pending := s.pending - {c.fd}))
  {
  }

  lemma ReadyWellFormed(s: State, c: Connection, id: EndpointId)
    requires WellFormed(s)
    ensures WellFormed(Ready(s, c, id))
  {
  }

  lemma FilterWellFormed(s: State, e: Endpoint, cmd: FilterCommand)
    requires WellFormed(s) && e in s.store
    ensures WellFormed(Filter(s, e, cmd))
  {
  }

  lemma RegisterWellFormed(s: State, c: Connection, cmd: RegisterCommand, id: EndpointId, e: Endpoint, token: string)
    requires WellFormed(s) && c in s.ids && (id !in s.endpoints ==> e !in s.store)
    ensures WellFormed(Register(s, c, cmd, id, e, token))
  {
    if Accepted(s, c, cmd, id) {
      if id in s.endpoints {
        RejoinWellFormed(s, c, cmd, id, token);
      } else {
        EnrolWellFormed(s, c, cmd, id, e, token);
      }
      hide WellFormed, Rejoin, Enrol;
      var s' := if id in s.endpoints then Rejoin(s, c, cmd, id, token) else Enrol(s, c, cmd, id, e, token);
      PendingWellFormed(s', c, s'.open);
    }
  }

  lemma NextWellFormed(s: State, ev: Event)
    requires WellFormed(s) && Possible(s, ev)
    ensures WellFormed(Next(s, ev))
  {
    assert s.open <= s.ids.Keys;
    match ev
    case Registering(c, cmd, drawn, created, token) =>
      RegisterWellFormed(s, c, cmd, ChosenId(cmd, drawn), created, token);
    case Filtering(c, filter) =>
      if s.ids[c] in s.endpoints {
        FilterWellFormed(s, s.endpoints[s.ids[c]], filter);
      }
    case ConnectionReady(c, id) =>
      ReadyWellFormed(s, c, id);
    case ConnectionClosed(c) =>
      RemoveWellFormed(s, s.ids[c]);
      RemoveFrame(s, s.ids[c]);
      PendingWellFormed(RemoveEndpoint(s, s.ids[c]), c, s.open - {c});
    case _ =>
  }
}
