/** The environment hypotheses are exactly what the registry needs: each broken one breaks it. */
module Environment {
  import opened SwitchTypes
  import opened Entities
  import opened Registry
  import opened RegistryInvariant
  import opened Runs

  // After a takeover the endpoint reads its id through the new connection, whose id was never set.
  lemma TakeoverParts(s: State, c: Connection, cmd: RegisterCommand, id: EndpointId, token: string)
    requires WellFormed(s) && id in s.endpoints && s.store[s.endpoints[id]].conn.fd != c.fd
    ensures var s' := Rejoin(s, c, cmd, id, token);
            && s'.ids == s.ids && s'.endpoints == s.endpoints && s.endpoints[id] in s'.store
            && s'.store[s.endpoints[id]].conn == c
  {
    MemberStored(s, id);
    hide WellFormed, RoleOf, TokenMatches, SwitchRole, InsertService, EraseService;
    var e, role := s.endpoints[id], RoleOf(cmd.role);
    var now := Reconnected(s.store[e], c, role, TokenMatches(s, e, cmd), token);
    SwitchRoleFrame(s.(store := s.store[e := now]), id, e, role, cmd.svcType);
  }

  lemma CarriesAnotherId(s: State, c: Connection, id: EndpointId)
    requires Inv(s) && c in s.open && id in s.endpoints && s.store[s.endpoints[id]].conn.fd != c.fd
    ensures c in s.ids && s.ids[c] != id
  {
  }

  lemma TakeoverBreaksKeys(s: State, c: Connection, cmd: RegisterCommand, id: EndpointId, token: string)
    requires Inv(s) && c in s.open && id in s.endpoints && s.store[s.endpoints[id]].conn.fd != c.fd
    ensures !Inv(Rejoin(s, c, cmd, id, token).(pending := s.pending - {c.fd}))
  {
    CarriesAnotherId(s, c, id);
    TakeoverParts(s, c, cmd, id, token);
    hide Rejoin, RoleIndexed, ServicesSound, ServicesComplete, ConnectionsPlaced, SubscriptionsIndexed, WellFormed;
  }

  lemma SecondIdBreaksKeys(s: State, c: Connection, cmd: RegisterCommand, id: EndpointId, e: Endpoint, token: string)
    requires Inv(s) && c in s.open && e !in s.store && id !in s.endpoints && c.fd !in s.pending
    ensures !Inv(Enrol(s, c, cmd, id, e, token).(pending := s.pending - {c.fd}))
  {
    var s' := Enrol(s, c, cmd, id, e, token).(pending := s.pending - {c.fd});
    var older := s.ids[c];
    assert older in s.endpoints && s.store[s.endpoints[older]].conn == c;
    assert s'.endpoints[older] == s.endpoints[older] && s'.store[s.endpoints[older]].conn == c && s'.ids[c] == id;
    hide RoleIndexed, ServicesSound, ServicesComplete, ConnectionsPlaced, SubscriptionsIndexed, WellFormed;
  }

  lemma SharedIdBreaksPending(s: State, c: Connection, cmd: RegisterCommand, id: EndpointId, e: Endpoint, token: string,
                              d: Connection)
    requires Inv(s) && c in s.open && e !in s.store && id !in s.endpoints && c.fd in s.pending
    requires d in s.open && d != c && d.fd in s.pending && s.ids[d] == id
    ensures !Inv(Enrol(s, c, cmd, id, e, token).(pending := s.pending - {c.fd}))
  {
    var s' := Enrol(s, c, cmd, id, e, token).(pending := s.pending - {c.fd});
    assert d.fd != c.fd;
    assert d in s'.open && d.fd in s'.pending && s'.ids[d] in s'.endpoints;
    hide RoleIndexed, ServicesSound, ServicesComplete, KeyedByOwnId, SubscriptionsIndexed, WellFormed;
  }

  /** A registration keeps the views in agreement if and only if it is refused or meets E1, E2 and E3. */
  lemma RegistrationExact(s: State, ev: Event)
    requires Inv(s) && ev.Registering? && Possible(s, ev)
    ensures Inv(Next(s, ev)) <==> Allowed(s, ev)
  {
    var Registering(c, cmd, drawn, e, token) := ev;
    var id := ChosenId(cmd, drawn);
    if Allowed(s, ev) {
      NextKeepsInv(s, ev);
    } else if id in s.endpoints {
      TakeoverBreaksKeys(s, c, cmd, id, token);
    } else if c.fd !in s.pending {
      SecondIdBreaksKeys(s, c, cmd, id, e, token);
    } else {
      var d :| d in s.open && d != c && d.fd in s.pending && s.ids[d] == id;
      SharedIdBreaksPending(s, c, cmd, id, e, token, d);
    }
  }

  /** A new connection keeps them in agreement if and only if the id it comes with is not a key. */
  lemma ConnectionExact(s: State, ev: Event)
    requires Inv(s) && ev.ConnectionReady? && Possible(s, ev)
    ensures Inv(Next(s, ev)) <==> Allowed(s, ev)
  {
    var ConnectionReady(c, id) := ev;
    PendingFresh(s, c);
    if Allowed(s, ev) {
      ReadyKeepsInv(s, c, id);
    } else {
      var s' := Ready(s, c, id);
      assert c in s'.open && c.fd in s'.pending && s'.ids[c] in s'.endpoints;
      hide RoleIndexed, ServicesSound, ServicesComplete, KeyedByOwnId, SubscriptionsIndexed, WellFormed;
    }
  }

  // ----- E1 for free when every connection starts with id 0 -----

  ghost predicate PendingCarryZero(s: State)
    requires WellFormed(s)
  {
    forall d | d in s.open && d.fd in s.pending :: s.ids[d] == 0
  }

  // E2 and E3 alone.
  ghost predicate OneIdEach(s: State, ev: Event)
    requires WellFormed(s)
  {
    Registers(s, ev) ==>
      var id := ChosenId(ev.cmd, ev.drawn);
      if id in s.endpoints then s.store[s.endpoints[id]].conn.fd == ev.c.fd else ev.c.fd in s.pending
  }

  ghost predicate ZeroAt(r: Run, i: nat)
    requires |r.states| == |r.events| + 1
  {
    && i < |r.events| && WellFormed(r.states[i]) && OneIdEach(r.states[i], r.events[i])
    && (r.events[i].ConnectionReady? ==> r.events[i].id == 0)
  }

  lemma ZeroAllows(s: State, ev: Event)
    requires Inv(s) && PendingCarryZero(s) && Possible(s, ev) && OneIdEach(s, ev)
    requires ev.ConnectionReady? ==> ev.id == 0
    ensures Allowed(s, ev)
  {
    hide RoleIndexed, ServicesSound, ServicesComplete, SubscriptionsIndexed;
  }

  lemma ZeroStays(s: State, ev: Event)
    requires Inv(s) && Allowed(s, ev) && PendingCarryZero(s) && (ev.ConnectionReady? ==> ev.id == 0)
    ensures WellFormed(Next(s, ev)) && PendingCarryZero(Next(s, ev))
  {
    NextWellFormed(s, ev);
    NextConnections(s, ev);
    NextIds(s, ev);
    if ev.ConnectionReady? {
      PendingFresh(s, ev.c);
    }
    FdsDistinct(s);
    OpenKnown(s);
    hide Inv, WellFormed, Next, Accepted;
  }

  lemma FdsDistinct(s: State)
    requires Inv(s)
    ensures forall c, d | c in s.open && d in s.open && c.fd == d.fd :: c == d
  {
  }

  lemma ZeroStep(r: Run, i: nat)
    requires IsRun(r) && i < |r.events| && ZeroAt(r, i) && Inv(r.states[i]) && PendingCarryZero(r.states[i])
    ensures AllowedAt(r, i) && Inv(r.states[i + 1]) && PendingCarryZero(r.states[i + 1])
  {
    Step(r, i);
    hide IsRun, Inv, Next, WellFormed, Possible, PendingCarryZero;
    ZeroAllows(r.states[i], r.events[i]);
    NextKeepsInv(r.states[i], r.events[i]);
    ZeroStays(r.states[i], r.events[i]);
  }

  lemma {:induction false} ZeroPrefix(r: Run, i: nat)
    requires IsRun(r) && i < |r.states| && forall k: nat | k < |r.events| :: ZeroAt(r, k)
    ensures Inv(r.states[i]) && PendingCarryZero(r.states[i])
    ensures forall k: nat | k < i :: AllowedAt(r, k)
    decreases i
  {
    EmptyInv();
    hide Inv, AllowedAt;
    if i > 0 {
      ZeroPrefix(r, i - 1);
      assert ZeroAt(r, i - 1);
      hide ZeroAt, PendingCarryZero;
      ZeroStep(r, i - 1);
    }
  }

  /** If every connection starts with id 0, E1 never needs assuming: runs under E2 and E3 are allowed runs. */
  lemma ZeroIdsGiveE1(r: Run)
    requires IsRun(r) && forall k: nat | k < |r.events| :: ZeroAt(r, k)
    ensures IsAllowedRun(r)
  {
    ZeroPrefix(r, |r.events|);
    hide AllowedAt, ZeroAt;
  }

  // ----- Closing -----

  lemma RoleMinus(index: map<EndpointId, Endpoint>, endpoints: map<EndpointId, Endpoint>, store: map<Endpoint, Record>,
                  role: Role, id: EndpointId)
    requires Stored(endpoints, store) && RoleIndexed(index, endpoints, store, role)
    ensures !(id in endpoints && store[endpoints[id]].role == role) ==> index - {id} == index
  {
  }

  lemma InvRoles(s: State)
    requires Inv(s)
    ensures WellFormed(s) && Stored(s.endpoints, s.store)
    ensures RoleIndexed(s.normal, s.endpoints, s.store, Normal) && RoleIndexed(s.admin, s.endpoints, s.store, Admin)
  {
  }

  lemma RemovedFromRoles(s: State, id: EndpointId)
    requires Inv(s)
    ensures var s' := RemoveEndpoint(s, id);
            && s'.endpoints == s.endpoints - {id} && s'.normal == s.normal - {id} && s'.admin == s.admin - {id}
            && s'.store == s.store && s'.subscribers == s.subscribers && s'.pending == s.pending && s'.ids == s.ids
  {
    hide Inv, WellFormed, Stored, RoleIndexed;
    InvRoles(s);
    RoleMinus(s.normal, s.endpoints, s.store, Normal, id);
    RoleMinus(s.admin, s.endpoints, s.store, Admin, id);
    if id in s.endpoints {
      KeyFacts(s, id);
    } else {
      assert s.endpoints - {id} == s.endpoints;
    }
  }

  lemma RemovedFromServices(s: State, id: EndpointId, t: ServiceType, e: Endpoint)
    requires Inv(s) && id in s.endpoints
    ensures InService(RemoveEndpoint(s, id).services, t, e) <==> InService(s.services, t, e) && e != s.endpoints[id]
  {
    SeatFacts(s, id, t);
    hide WellFormed, Inv;
  }

  lemma OneEndpointEach(s: State, c: Connection, j: EndpointId)
    requires Inv(s) && c in s.open && j in s.endpoints && s.store[s.endpoints[j]].conn == c
    ensures c in s.ids && j == s.ids[c]
  {
  }

  /** A closing connection takes its own endpoint along and no other: the rest of each view stays as it was, service
      type by service type and endpoint by endpoint. */
  lemma CloseRemovesOwnEndpointOnly(s: State, c: Connection, t: ServiceType, e: Endpoint)
    requires Inv(s) && c in s.open
    ensures var id := s.ids[c];
            var s' := Closed(s, c);
            && s'.endpoints == s.endpoints - {id} && s'.normal == s.normal - {id} && s'.admin == s.admin - {id}
            && s'.store == s.store && s'.subscribers == s.subscribers && s'.pending == s.pending - {c.fd}
            && (InService(s'.services, t, e)
                <==> InService(s.services, t, e) && !(id in s.endpoints && e == s.endpoints[id]))
            && (forall j | j in s.endpoints && s.store[s.endpoints[j]].conn == c :: j == id)
  {
    hide Inv, WellFormed, InService, RemoveEndpoint;
    InvRoles(s);
    OpenKnown(s);
    var id := s.ids[c];
    RemovedFromRoles(s, id);
    forall j | j in s.endpoints && s.store[s.endpoints[j]].conn == c ensures j == id {
      OneEndpointEach(s, c, j);
    }
    if id in s.endpoints {
      RemovedFromServices(s, id, t, e);
    } else {
      NothingRemoved(s, id);
    }
  }

  lemma NothingRemoved(s: State, id: EndpointId)
    requires WellFormed(s) && id !in s.endpoints
    ensures RemoveEndpoint(s, id) == s
  {
    hide WellFormed;
  }

  /** What a takeover costs: the kicked connection still carries the id, so its closing removes the taken endpoint, and
      the role index keeps the removed endpoint. */
  lemma TakeoverLosesEndpoint(s: State, c: Connection, cmd: RegisterCommand, id: EndpointId, e: Endpoint, token: string)
    requires Inv(s) && c in s.open && id in s.endpoints && s.store[s.endpoints[id]].conn.fd != c.fd
    requires Accepted(s, c, cmd, id) && RoleOf(cmd.role) == s.store[s.endpoints[id]].role == Normal
    ensures var s1 := Register(s, c, cmd, id, e, token);
            var kicked := s.store[s.endpoints[id]].conn;
            && WellFormed(s1) && kicked in s1.open && s1.endpoints[id] == s.endpoints[id]
            && var s2 := Closed(s1, kicked);
               c in s2.open && id !in s2.endpoints && id in s2.normal
  {
    MemberStored(s, id);
    KeyFacts(s, id);
    CarriesAnotherId(s, c, id);
    RejoinWellFormed(s, c, cmd, id, token);
    PendingWellFormed(Rejoin(s, c, cmd, id, token), c, s.open);
    TakeoverNormal(s, c, cmd, id, token);
    var kicked := s.store[s.endpoints[id]].conn;
    assert kicked in s.open && s.ids[kicked] == id && id in s.normal;
    hide WellFormed, Inv, Rejoin, Closed;
    ClosedWithAnotherId(Register(s, c, cmd, id, e, token), kicked, id);
  }

  lemma ClosedWithAnotherId(s: State, c: Connection, id: EndpointId)
    requires WellFormed(s) && c in s.open && c in s.ids && s.ids[c] == id && id in s.endpoints && id in s.normal
    requires s.endpoints[id] in s.store && s.store[s.endpoints[id]].role == Normal
    requires s.store[s.endpoints[id]].conn in s.ids && IdOf(s, s.endpoints[id]) != id
    ensures var s' := Closed(s, c);
            id !in s'.endpoints && id in s'.normal && s'.open == s.open - {c}
  {
    hide WellFormed;
  }

  lemma TakeoverNormal(s: State, c: Connection, cmd: RegisterCommand, id: EndpointId, token: string)
    requires WellFormed(s) && id in s.endpoints && s.store[s.endpoints[id]].conn.fd != c.fd
    requires RoleOf(cmd.role) == s.store[s.endpoints[id]].role == Normal
    ensures var s', e := Rejoin(s, c, cmd, id, token), s.endpoints[id];
            && s'.ids == s.ids && s'.endpoints == s.endpoints && s'.normal == s.normal && s'.open == s.open
            && e in s'.store && s'.store[e].conn == c && s'.store[e].role == Normal
  {
  }
}
