/** The service request/response protocol: who serves a request, and where a response goes. */
module Services {
  import opened SwitchTypes
  import opened Entities
  import opened Registry
  import opened RegistryInvariant
  import opened Runs
  import opened Routing

  // ----- Selection -----

  // The set that is looked at: the one of the requested type if there is an entry for it, else the wildcard's, type 0.
  function Consulted(services: map<ServiceType, set<Endpoint>>, t: ServiceType): ServiceType {
    if t in services then t else 0
  }

  ghost function Candidates(s: State, source: Endpoint, header: ServiceHeader): set<Endpoint>
    requires WellFormed(s) && source in s.store
  {
    set e | e in ServiceSet(s.services, Consulted(s.services, header.svcType))
            && ForwardingAllowed(s, source, e, header.svcCmd)
  }

  // What the loop over the pointer-ordered set may end with.
  ghost predicate Selectable(s: State, source: Endpoint, header: ServiceHeader, chosen: Option<Endpoint>)
    requires WellFormed(s) && source in s.store
  {
    match chosen
    case None => Candidates(s, source, header) == {}
    case Some(e) => e in Candidates(s, source, header)
  }

  ghost predicate Served(s: State, t: ServiceType)
    requires Stored(s.endpoints, s.store)
  {
    exists id :: id in s.endpoints && s.store[s.endpoints[id]].role == Service && s.store[s.endpoints[id]].svcType == t
  }

  /** A chosen endpoint is another, live Service endpoint that takes the command, of the requested type or, when no live
      endpoint serves that, of the wildcard type. */
  lemma ChosenServes(s: State, source: Endpoint, header: ServiceHeader, e: Endpoint)
    requires Inv(s) && source in s.store && Selectable(s, source, header, Some(e))
    ensures Live(s.endpoints, s.store, s.ids, e) && s.store[e].role == Service
    ensures ForwardingAllowed(s, source, e, header.svcCmd)
    ensures s.store[e].svcType == header.svcType || (s.store[e].svcType == 0 && !Served(s, header.svcType))
  {
    var t := Consulted(s.services, header.svcType);
    assert InService(s.services, t, e);
    assert Serves(s.endpoints, s.store, s.ids, t, e);
    hide RoleIndexed, ConnectionsPlaced, SubscriptionsIndexed;
  }

  // The allowed live services of a type.
  ghost function AllowedOf(s: State, source: Endpoint, t: ServiceType, cmd: MessageId): set<Endpoint>
    requires WellFormed(s) && source in s.store
  {
    set id | id in s.endpoints && s.store[s.endpoints[id]].role == Service && s.store[s.endpoints[id]].svcType == t
             && ForwardingAllowed(s, source, s.endpoints[id], cmd) :: s.endpoints[id]
  }

  lemma CandidatesAreAllowed(s: State, source: Endpoint, header: ServiceHeader)
    requires Inv(s) && source in s.store
    ensures Candidates(s, source, header)
            == AllowedOf(s, source, Consulted(s.services, header.svcType), header.svcCmd)
  {
    var t := Consulted(s.services, header.svcType);
    forall e | e in Candidates(s, source, header) ensures e in AllowedOf(s, source, t, header.svcCmd) {
      assert InService(s.services, t, e) && Serves(s.endpoints, s.store, s.ids, t, e);
      var id := s.ids[s.store[e].conn];
      assert s.endpoints[id] == e;
    }
    forall e | e in AllowedOf(s, source, t, header.svcCmd) ensures e in Candidates(s, source, header) {
      var id :| id in s.endpoints && s.endpoints[id] == e;
      SeatFacts(s, id, t);
    }
  }

  /** The error reply is sent exactly when no live service of the consulted type takes the command. */
  lemma RefusedExactly(s: State, source: Endpoint, header: ServiceHeader, chosen: Option<Endpoint>)
    requires Inv(s) && source in s.store && Selectable(s, source, header, chosen)
    ensures chosen == None
            <==> AllowedOf(s, source, Consulted(s.services, header.svcType), header.svcCmd) == {}
  {
    CandidatesAreAllowed(s, source, header);
    hide Inv, Candidates, AllowedOf;
  }

  /** When no live endpoint serves the requested type, the wildcard services stand in if and only if no entry for the
      type is left (or there is nobody to stand in). */
  lemma WildcardStandsInExactly(s: State, source: Endpoint, header: ServiceHeader)
    requires Inv(s) && source in s.store && header.svcType != 0 && !Served(s, header.svcType)
    ensures Candidates(s, source, header) == AllowedOf(s, source, 0, header.svcCmd)
            <==> header.svcType !in s.services || AllowedOf(s, source, 0, header.svcCmd) == {}
  {
    CandidatesAreAllowed(s, source, header);
    NobodyAllowed(s, source, header.svcType, header.svcCmd);
    hide Inv, Candidates, AllowedOf, Served;
  }

  lemma NobodyAllowed(s: State, source: Endpoint, t: ServiceType, cmd: MessageId)
    requires Inv(s) && source in s.store && !Served(s, t)
    ensures AllowedOf(s, source, t, cmd) == {}
  {
  }

  /** Such an entry is left whenever the last service of a type closes its connection: its requests are refused from
      then on, whatever wildcard services there are. */
  lemma LastCloseLeavesEmptyEntry(s: State, c: Connection, t: ServiceType)
    requires Inv(s) && c in s.open && c in s.ids && s.ids[c] in s.endpoints
    requires t in s.services && s.services[t] == {s.endpoints[s.ids[c]]}
    ensures WellFormed(Closed(s, c)) && t in Closed(s, c).services && Closed(s, c).services[t] == {}
  {
    var e := s.endpoints[s.ids[c]];
    assert InService(s.services, t, e) && Serves(s.endpoints, s.store, s.ids, t, e);
    RemoveWellFormed(s, s.ids[c]);
    RemoveFrame(s, s.ids[c]);
    PendingWellFormed(RemoveEndpoint(s, s.ids[c]), c, s.open - {c});
    hide Inv, WellFormed;
  }

  lemma EmptyEntryRefuses(s: State, source: Endpoint, header: ServiceHeader, chosen: Option<Endpoint>)
    requires WellFormed(s) && source in s.store && Selectable(s, source, header, chosen)
    requires header.svcType in s.services && s.services[header.svcType] == {}
    ensures chosen == None
  {
  }

  // ----- Only a close leaves an empty entry -----

  predicate NoEmptyEntry(services: map<ServiceType, set<Endpoint>>) {
    forall t | t in services :: services[t] != {}
  }

  lemma EntriesAfterSwitch(services: map<ServiceType, set<Endpoint>>, t: ServiceType, e: Endpoint)
    requires NoEmptyEntry(services)
    ensures NoEmptyEntry(InsertService(services, t, e)) && NoEmptyEntry(EraseService(services, t, e))
  {
    assert e in ServiceSet(services, t) + {e};
  }

  lemma EntriesAfterReseat(services: map<ServiceType, set<Endpoint>>, e: Endpoint, was: Record, role: Role, t: ServiceType)
    requires NoEmptyEntry(services)
    ensures NoEmptyEntry(Reseat(services, e, was, role, t))
  {
    hide NoEmptyEntry, InsertService, EraseService;
    var left := if role != was.role && was.role.Service? then EraseService(services, was.svcType, e) else services;
    var entered := if role != was.role && role.Service? then InsertService(left, t, e) else left;
    EntriesAfterSwitch(services, was.svcType, e);
    EntriesAfterSwitch(left, t, e);
    EntriesAfterSwitch(entered, was.svcType, e);
    EntriesAfterSwitch(EraseService(entered, was.svcType, e), t, e);
  }

  lemma EntriesStep(s: State, ev: Event)
    requires WellFormed(s) && Allowed(s, ev) && !ev.ConnectionClosed? && NoEmptyEntry(s.services)
    ensures NoEmptyEntry(Next(s, ev).services)
  {
    match ev
    case Registering(c, cmd, drawn, e, token) =>
      var id := ChosenId(cmd, drawn);
      if id in s.endpoints {
        MemberStored(s, id);
        if Accepted(s, c, cmd, id) {
          RejoinParts(s, c, cmd, id, token);
        }
        EntriesAfterReseat(s.services, s.endpoints[id], s.store[s.endpoints[id]], RoleOf(cmd.role), cmd.svcType);
      } else {
        EntriesAfterSwitch(s.services, cmd.svcType, e);
      }
      hide WellFormed, NoEmptyEntry, Rejoin, Reseat, InsertService, MovedRole;
    case _ =>
      hide WellFormed, NoEmptyEntry;
  }

  /** Until the first close no entry is empty, whatever role and type switches there were. */
  lemma {:induction false} NoCloseNoEmptyEntry(r: Run, i: nat)
    requires IsAllowedRun(r) && i < |r.states| && NoClose(r, i)
    ensures NoEmptyEntry(r.states[i].services)
    decreases i
  {
    if i > 0 {
      NoCloseNoEmptyEntry(r, i - 1);
      AllowedStep(r, i - 1);
      hide IsRun, NoEmptyEntry, Next, Allowed, Possible, WellFormed;
      EntriesStep(r.states[i - 1], r.events[i - 1]);
    }
  }

  lemma EntryIsServed(s: State, t: ServiceType)
    requires Inv(s) && NoEmptyEntry(s.services) && t in s.services
    ensures Served(s, t)
  {
    var e :| e in s.services[t];
    assert Serves(s.endpoints, s.store, s.ids, t, e);
    hide RoleIndexed, ServicesComplete, ConnectionsPlaced, SubscriptionsIndexed;
  }

  /** So in every state of a run without closes, wildcard services stand in exactly for the types that nobody serves. */
  lemma WildcardInRun(r: Run, i: nat, source: Endpoint, header: ServiceHeader)
    requires IsAllowedRun(r) && i < |r.states| && NoClose(r, i) && source in r.states[i].store
    ensures Inv(r.states[i])
    ensures var s := r.states[i];
            Candidates(s, source, header)
            == AllowedOf(s, source, if Served(s, header.svcType) then header.svcType else 0, header.svcCmd)
  {
    var s := r.states[i];
    ReachableInv(r, i);
    NoCloseNoEmptyEntry(r, i);
    if header.svcType in s.services {
      EntryIsServed(s, header.svcType);
    }
    ServedHasEntry(s, header.svcType);
    CandidatesAreAllowed(s, source, header);
    hide IsAllowedRun, Inv, Candidates, AllowedOf, Served, NoEmptyEntry;
  }

  lemma ServedHasEntry(s: State, t: ServiceType)
    requires Inv(s)
    ensures Served(s, t) ==> t in s.services
  {
    if Served(s, t) {
      var id :| id in s.endpoints && s.store[s.endpoints[id]].role == Service && s.store[s.endpoints[id]].svcType == t;
      SeatFacts(s, id, t);
    }
    hide Inv;
  }

  // ----- Correlation of responses with requests -----

  // The connection a response with this header is sent to; none when the sender or the requester's id is unknown.
  ghost function DeliveredTo(s: State, c: Connection, header: ServiceHeader): Option<Connection>
    requires WellFormed(s)
  {
    if c in s.ids && s.ids[c] in s.endpoints && header.source in s.endpoints
    then Some(s.store[s.endpoints[header.source]].conn) else None
  }

  // Connection `q` asked for a service and the server forwarded the request to endpoint `e`, over connection `c`.
  ghost predicate Forwarded(s: State, ev: Event, q: Connection, header: ServiceHeader, c: Connection) {
    && ev.ServiceRequest? && ev.c == q && ev.header == header && ev.chosen.Some?
    && OwnsEndpoint(s, q)
    && ev.chosen.value in s.store && s.store[ev.chosen.value].conn == c
  }

  // A client names itself as the source, and the server selects as it does.
  ghost predicate HonestRequest(s: State, ev: Event) {
    ev.ServiceRequest? ==>
      && WellFormed(s)
      && if OwnsEndpoint(s, ev.c)
         then ev.c in s.ids && ev.header.source == s.ids[ev.c]
              && s.ids[ev.c] in s.endpoints && Selectable(s, s.endpoints[s.ids[ev.c]], ev.header, ev.chosen)
         else ev.chosen == None
  }

  // A service answers what it was asked, on the connection it was asked on, with the header it was sent.
  ghost predicate EchoesAt(r: Run, j: nat, i: nat)
    requires |r.states| == |r.events| + 1 && j < |r.events| && r.events[j].ServiceResponse?
  {
    i < j && Forwarded(r.states[i], r.events[i], r.events[i].c, r.events[j].header, r.events[j].c)
  }

  ghost predicate HonestAt(r: Run, k: nat)
    requires |r.states| == |r.events| + 1
  {
    && k < |r.events| && HonestRequest(r.states[k], r.events[k])
    && (r.events[k].ServiceResponse? ==> exists i: nat :: EchoesAt(r, k, i))
  }

  ghost predicate Honest(r: Run)
    requires |r.states| == |r.events| + 1
  {
    forall k: nat | k < |r.events| :: HonestAt(r, k)
  }

  lemma RequesterIsSource(r: Run, j: nat, i: nat)
    requires IsAllowedRun(r) && Honest(r) && j < |r.events| && r.events[j].ServiceResponse? && EchoesAt(r, j, i)
    ensures var q := r.events[i].c;
            OwnsEndpoint(r.states[i], q) && q in r.states[i].ids && r.states[i].ids[q] == r.events[j].header.source
  {
    assert HonestAt(r, i);
    hide IsAllowedRun, Selectable;
  }

  lemma OwnedByRequester(s: State, q: Connection, c: Connection, header: ServiceHeader)
    requires Inv(s) && OwnsEndpoint(s, q) && q in s.ids && s.ids[q] == header.source
    ensures c in s.ids && s.ids[c] in s.endpoints ==> DeliveredTo(s, c, header) == Some(q)
  {
    OwnedIs(s, q);
    hide Inv;
  }

  lemma DeliveredToSource(s: State, c: Connection, header: ServiceHeader, d: Connection)
    requires Inv(s) && DeliveredTo(s, c, header) == Some(d)
    ensures d in s.open && d in s.ids && s.ids[d] == header.source
  {
  }

  /** However many requests are under way, a response that is sent on goes to the endpoint registered under the id that
      made some earlier request with the very same header; and if that requester's connection is still open, the response
      is sent, and to that connection. */
  lemma ResponseReachesRequester(r: Run, j: nat) returns (i: nat)
    requires IsAllowedRun(r) && Honest(r) && j < |r.events| && r.events[j].ServiceResponse?
    ensures EchoesAt(r, j, i) && WellFormed(r.states[j])
    ensures var s, q, header := r.states[j], r.events[i].c, r.events[j].header;
            var to := DeliveredTo(s, r.events[j].c, header);
            && OwnsEndpoint(r.states[i], q) && q in r.states[i].ids && r.states[i].ids[q] == header.source
            && (to.Some? ==> to.value in s.open && to.value in s.ids && s.ids[to.value] == header.source)
            && (q in s.open && r.events[j].c in s.ids && s.ids[r.events[j].c] in s.endpoints ==> to == Some(q))
  {
    assert HonestAt(r, j);
    i :| EchoesAt(r, j, i);
    RequesterIsSource(r, j, i);
    ReachableInv(r, j);
    var s, q, c, header := r.states[j], r.events[i].c, r.events[j].c, r.events[j].header;
    if q in s.open {
      OwnerStays(r, i, j, q);
      OwnedByRequester(s, q, c, header);
    }
    hide IsAllowedRun, Inv, EchoesAt;
    var to := DeliveredTo(s, c, header);
    if to.Some? {
      DeliveredToSource(s, c, header, to.value);
    }
  }
}
