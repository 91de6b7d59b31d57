/** Which registrations succeed, in which role, and what they report: in terms of the command alone. */
module Registration {
  import opened SwitchTypes
  import opened Entities
  import opened Registry
  import opened RegistryInvariant
  import opened Runs
  import opened Network
  import SwitchService

  // The id a registration is for: the one it asks for, or a drawn one when it asks for none.
  function Wanted(ev: Event): EndpointId
    requires ev.Registering?
  {
    if ev.cmd.id != 0 then ev.cmd.id else ev.drawn
  }

  // Over the endpoint's own connection, or with the token the endpoint was given last.
  ghost predicate MayRejoin(was: Record, ev: Event)
    requires ev.Registering?
  {
    was.conn.fd == ev.c.fd || (ev.cmd.token != "" && ev.cmd.token == was.token)
  }

  /** A registration succeeds exactly with the right access code, one of the roles 1 to 3 and, when the id is taken, over
      the same connection or with the last token. */
  lemma RegistersExactly(s: State, ev: Event)
    requires WellFormed(s) && ev.Registering?
    ensures Registers(s, ev)
            <==> && ev.cmd.authorized && 1 <= ev.cmd.role <= 3
                 && (Wanted(ev) in s.endpoints ==> MayRejoin(s.store[s.endpoints[Wanted(ev)]], ev))
  {
    hide WellFormed;
    if Wanted(ev) in s.endpoints {
      MemberStored(s, Wanted(ev));
    }
  }

  /** A refused registration changes nothing. */
  lemma RefusedChangesNothing(s: State, ev: Event)
    requires WellFormed(s) && Possible(s, ev) && ev.Registering? && !Registers(s, ev)
    ensures Next(s, ev) == s
  {
    hide WellFormed;
  }

  // What a record is after a registration by `ev` under id `id`: role codes 1, 2 and 3 in turn.
  ghost predicate InRole(s: State, id: EndpointId, ev: Event)
    requires ev.Registering?
  {
    && id in s.endpoints && s.endpoints[id] in s.store
    && var e := s.endpoints[id];
       var r := s.store[e];
       && r.conn.fd == ev.c.fd
       && (ev.cmd.role == 1 ==> r.role == Normal && id in s.normal && s.normal[id] == e && id !in s.admin)
       && (ev.cmd.role == 2 ==> r.role == Admin && id in s.admin && s.admin[id] == e && id !in s.normal)
       && (ev.cmd.role == 3 ==> && r.role == Service && r.svcType == ev.cmd.svcType && id !in s.normal && id !in s.admin
                                && InService(s.services, ev.cmd.svcType, e))
  }

  /** Every accepted registration leaves the endpoint in the role it asked for, and in the index of that role only. */
  lemma RegisteredInRole(s: State, ev: Event)
    requires Inv(s) && Possible(s, ev) && ev.Registering? && Registers(s, ev) && Allowed(s, ev)
    ensures InRole(Next(s, ev), Wanted(ev), ev)
  {
    var s', id := Next(s, ev), Wanted(ev);
    RegistersExactly(s, ev);
    NextKeepsInv(s, ev);
    RegisteredRecord(s, ev);
    hide WellFormed, Next, Possible, Allowed;
    KeyFacts(s', id);
    SeatFacts(s', id, ev.cmd.svcType);
    RoleFacts(s', id);
    hide Inv, InService;
  }

  lemma RoleFacts(s: State, id: EndpointId)
    requires Inv(s) && id in s.endpoints
    ensures var e := s.endpoints[id];
            && (id in s.normal <==> s.store[e].role == Normal) && (id in s.normal ==> s.normal[id] == e)
            && (id in s.admin <==> s.store[e].role == Admin) && (id in s.admin ==> s.admin[id] == e)
  {
    hide ServicesSound, ServicesComplete, ConnectionsPlaced, SubscriptionsIndexed;
  }

  // The record that an accepted registration leaves, field by field; a taken id keeps its endpoint and filters.
  lemma RegisteredRecord(s: State, ev: Event)
    requires WellFormed(s) && Possible(s, ev) && ev.Registering? && Registers(s, ev)
    ensures var s', id := Next(s, ev), Wanted(ev);
            && id in s'.endpoints && s'.endpoints[id] in s'.store
            && (id in s.endpoints ==> s'.endpoints[id] == s.endpoints[id])
            && (id !in s.endpoints ==> s'.endpoints[id] == ev.created)
            && var r := s'.store[s'.endpoints[id]];
               && r.conn.fd == ev.c.fd
               && (ev.cmd.role == 1 ==> r.role == Normal) && (ev.cmd.role == 2 ==> r.role == Admin)
               && (ev.cmd.role == 3 ==> r.role == Service && r.svcType == ev.cmd.svcType)
  {
    var id := Wanted(ev);
    if id in s.endpoints {
      RejoinRecord(s, ev.c, ev.cmd, id, ev.token);
      RejoinConnections(s, ev.c, ev.cmd, id, ev.token);
      hide Rejoin;
    }
    hide WellFormed, InsertService;
  }

  lemma RejoinRecord(s: State, c: Connection, cmd: RegisterCommand, id: EndpointId, token: string)
    requires WellFormed(s) && id in s.endpoints
    ensures s.endpoints[id] in s.store && s.endpoints[id] in Rejoin(s, c, cmd, id, token).store
    ensures var was := s.store[s.endpoints[id]];
            var now := Rejoin(s, c, cmd, id, token).store[s.endpoints[id]];
            && now.role == RoleOf(cmd.role) && now.conn.fd == c.fd
            && (RoleOf(cmd.role) == Service ==> now.svcType == cmd.svcType)
            && now.token == if (cmd.token != "" && cmd.token == was.token) || now.role != was.role then token else was.token
  {
    MemberStored(s, id);
    hide WellFormed, RoleOf, InsertService, EraseService;
  }

  /** The answer tells the truth: the id, the token when the endpoint has a new one, and the role when it was switched.
      Whoever held a taken id over another connection is told and disconnected, and nobody else. */
  lemma ReportedTruly(s: State, s': State, ev: Event, c: Connection, cmd: RegisterCommand, token: string,
                      result: SwitchService.RegisterResult, effects: seq<Effect>)
    requires WellFormed(s) && SwitchService.Registration(s, s', ev, c, cmd, token, result, effects)
    ensures ev.Registering? && (result == SwitchService.Refused <==> !Registers(s, ev))
    ensures result == SwitchService.Refused ==> s' == s && effects == []
    ensures result != SwitchService.Refused ==>
              var id := Wanted(ev);
              && result.id == id && id in s'.endpoints && s'.endpoints[id] in s'.store
              && var now := s'.store[s'.endpoints[id]];
                 && (id !in s.endpoints ==> result.token == token == now.token && result.role == 0 && effects == [])
                 && (id in s.endpoints ==>
                       var was := s.store[s.endpoints[id]];
                       var renewed := (cmd.token != "" && cmd.token == was.token) || now.role != was.role;
                       && result.token == (if renewed then token else "")
                       && now.token == (if renewed then token else was.token)
                       && result.role == (if now.role != was.role then cmd.role else 0)
                       && effects == if was.conn.fd == c.fd then []
                                     else [Result(was.conn, 16, 0, None), Disconnecting(was.conn)])
  {
    var id := Wanted(ev);
    if id in s.endpoints {
      RejoinRecord(s, ev.c, ev.cmd, id, ev.token);
      RejoinConnections(s, ev.c, ev.cmd, id, ev.token);
      hide Rejoin;
    }
    hide WellFormed, InsertService;
  }
}
