/** What `get_stats` reports, and why the numbers add up. */
module Statistics {
  import opened SwitchTypes
  import opened Entities
  import opened Registry
  import opened RegistryInvariant
  import opened Runs
  import opened Routing
  import opened Services

  datatype Stats = Stats(total: nat, normalTotal: nat, adminTotal: nat, svcTypeTotal: nat, svcEpTotal: nat,
                         msgTypeTotal: nat, msgEpTotal: nat, pendingTotal: nat,
                         normalIds: seq<EndpointId>, adminIds: seq<EndpointId>,
                         serviceIds: map<ServiceType, seq<EndpointId>>, subscriberIds: map<MessageId, seq<EndpointId>>)

  // The ids of some endpoints, and of those in all service sets.
  ghost function IdsOf(s: State, es: set<Endpoint>): set<EndpointId>
    requires WellFormed(s) && es <= s.store.Keys
  {
    set e | e in es :: IdOf(s, e)
  }

  ghost function ServiceIds(s: State): set<EndpointId>
    requires WellFormed(s)
  {
    set t, e | t in s.services && e in s.services[t] :: IdOf(s, e)
  }

  ghost function SubscriberIds(index: map<MessageId, set<EndpointId>>): set<EndpointId> {
    set m, id | m in index && id in index[m] :: id
  }

  // A list of the elements of a set, each once, in any order.
  ghost predicate Lists<T(!new)>(q: seq<T>, elements: set<T>) {
    multiset(q) == multiset(elements)
  }

  // The totals, whatever the details.
  ghost predicate ReportsTotals(s: State, st: Stats)
    requires WellFormed(s)
  {
    && st.total == |s.endpoints| && st.normalTotal == |s.normal| && st.adminTotal == |s.admin|
    && st.svcTypeTotal == |s.services| && st.svcEpTotal == |ServiceIds(s)|
    && st.msgTypeTotal == |s.subscribers| && st.msgEpTotal == |SubscriberIds(s.subscribers)|
    && st.pendingTotal == |s.pending|
  }

  // The detailed lists: ascending, except that a service set comes in pointer order; only non-empty sets are listed.
  ghost predicate ReportsDetails(s: State, st: Stats)
    requires WellFormed(s)
  {
    && Ascending(st.normalIds, s.normal.Keys) && Ascending(st.adminIds, s.admin.Keys)
    && (forall t | t in st.serviceIds :: t in s.services)
    && (forall t | t in s.services ::
          if s.services[t] == {} then t !in st.serviceIds else t in st.serviceIds && ListsService(s, t, st.serviceIds[t]))
    && (forall m | m in st.subscriberIds :: m in s.subscribers && Ascending(st.subscriberIds[m], s.subscribers[m]))
    && (forall m | m in s.subscribers && s.subscribers[m] != {} :: m in st.subscriberIds)
  }

  // How many endpoints of a set report an id.
  ghost function Tally(s: State, es: set<Endpoint>, id: EndpointId): nat
    requires WellFormed(s) && es <= s.store.Keys
  {
    |set e | e in es && IdOf(s, e) == id|
  }

  lemma StoredSets(s: State, t: ServiceType)
    requires WellFormed(s)
    ensures ServiceSet(s.services, t) <= s.store.Keys
  {
  }

  // One id for each endpoint of the set.
  ghost predicate ListsIds(s: State, es: set<Endpoint>, q: seq<EndpointId>)
    requires WellFormed(s) && es <= s.store.Keys
  {
    forall id :: multiset(q)[id] == Tally(s, es, id)
  }

  ghost predicate ListsService(s: State, t: ServiceType, q: seq<EndpointId>)
    requires WellFormed(s)
  {
    StoredSets(s, t);
    ListsIds(s, ServiceSet(s.services, t), q)
  }

  // ----- Counting set by set -----

  // The ids found in the sets of some types.
  ghost function IdsOfTypes(s: State, types: set<ServiceType>): set<EndpointId>
    requires WellFormed(s)
  {
    set t, e | t in types && t in s.services && e in s.services[t] :: IdOf(s, e)
  }

  lemma OneMoreType(s: State, types: set<ServiceType>, t: ServiceType)
    requires WellFormed(s)
    ensures ServiceSet(s.services, t) <= s.store.Keys
    ensures IdsOfTypes(s, types + {t}) == IdsOfTypes(s, types) + IdsOf(s, ServiceSet(s.services, t))
  {
    StoredSets(s, t);
    assert forall e | e in ServiceSet(s.services, t) :: t in s.services && e in s.services[t];
  }

  lemma OneMoreId(s: State, es: set<Endpoint>, e: Endpoint)
    requires WellFormed(s) && es <= s.store.Keys && e in s.store
    ensures IdsOf(s, es + {e}) == IdsOf(s, es) + {IdOf(s, e)} && IdsOf(s, {}) == {}
  {
  }

  lemma AllTypes(s: State)
    requires WellFormed(s)
    ensures IdsOfTypes(s, {}) == {} && IdsOfTypes(s, s.services.Keys) == ServiceIds(s)
  {
  }

  ghost function SubscribersOf(index: map<MessageId, set<EndpointId>>, types: set<MessageId>): set<EndpointId> {
    set m, id | m in types && m in index && id in index[m] :: id
  }

  lemma OneMoreMessage(index: map<MessageId, set<EndpointId>>, types: set<MessageId>, m: MessageId)
    requires m in index
    ensures SubscribersOf(index, types + {m}) == SubscribersOf(index, types) + index[m]
  {
  }

  lemma AllMessages(index: map<MessageId, set<EndpointId>>)
    ensures SubscribersOf(index, {}) == {} && SubscribersOf(index, index.Keys) == SubscriberIds(index)
  {
  }

  lemma OneMoreTally(s: State, es: set<Endpoint>, e: Endpoint, id: EndpointId)
    requires WellFormed(s) && es <= s.store.Keys && e in s.store && e !in es
    ensures Tally(s, es + {e}, id) == Tally(s, es, id) + if IdOf(s, e) == id then 1 else 0
  {
    var before := set x | x in es && IdOf(s, x) == id;
    var after := set x | x in es + {e} && IdOf(s, x) == id;
    assert after == if IdOf(s, e) == id then before + {e} else before;
  }

  lemma NoTally(s: State)
    requires WellFormed(s)
    ensures ListsIds(s, {}, [])
  {
  }

  lemma OneMoreTallies(s: State, es: set<Endpoint>, e: Endpoint, q: seq<EndpointId>)
    requires WellFormed(s) && es <= s.store.Keys && e in s.store && e !in es
    requires ListsIds(s, es, q)
    ensures ListsIds(s, es + {e}, q + [IdOf(s, e)])
  {
    forall id ensures multiset(q + [IdOf(s, e)])[id] == Tally(s, es + {e}, id) {
      OneMoreTally(s, es, e, id);
    }
  }

  lemma ListsAll(s: State, t: ServiceType, es: set<Endpoint>, q: seq<EndpointId>)
    requires WellFormed(s) && es == ServiceSet(s.services, t) <= s.store.Keys
    requires ListsIds(s, es, q)
    ensures ListsService(s, t, q)
  {
  }

  // The lists for some of the service types, and for some of the message types.
  ghost predicate ServicesListed(s: State, types: set<ServiceType>, lists: map<ServiceType, seq<EndpointId>>)
    requires WellFormed(s) && types <= s.services.Keys
  {
    && (forall t | t in lists :: t in types)
    && (forall t | t in types ::
          if s.services[t] == {} then t !in lists else t in lists && ListsService(s, t, lists[t]))
  }

  ghost predicate SubscribersListed(index: map<MessageId, set<EndpointId>>, types: set<MessageId>,
                                    lists: map<MessageId, seq<EndpointId>>)
    requires types <= index.Keys
  {
    && (forall m | m in lists :: m in types && Ascending(lists[m], index[m]))
    && (forall m | m in types && index[m] != {} :: m in lists)
  }

  lemma NoServicesListed(s: State)
    requires WellFormed(s)
    ensures ServicesListed(s, {}, map[])
  {
  }

  lemma OneMoreListed(s: State, types: set<ServiceType>, lists: map<ServiceType, seq<EndpointId>>, t: ServiceType,
                      q: seq<EndpointId>)
    requires WellFormed(s) && types <= s.services.Keys && t in s.services && t !in types
    requires ServicesListed(s, types, lists) && ListsService(s, t, q)
    ensures ServicesListed(s, types + {t}, if s.services[t] != {} then lists[t := q] else lists)
  {
    hide WellFormed, ListsService;
  }

  lemma DetailsListed(s: State, st: Stats)
    requires WellFormed(s) && Ascending(st.normalIds, s.normal.Keys) && Ascending(st.adminIds, s.admin.Keys)
    requires ServicesListed(s, s.services.Keys, st.serviceIds)
    requires SubscribersListed(s.subscribers, s.subscribers.Keys, st.subscriberIds)
    ensures ReportsDetails(s, st)
  {
    hide Ascending, ListsService;
  }

  // ----- The totals add up -----

  lemma KeysSplit(s: State)
    requires Inv(s)
    ensures s.endpoints.Keys == s.normal.Keys + s.admin.Keys + ServiceIds(s)
    ensures s.normal.Keys !! s.admin.Keys !! ServiceIds(s)
  {
    forall id ensures id in ServiceIds(s) <==> id in s.endpoints && s.store[s.endpoints[id]].role == Service {
      ServiceIdsAre(s, id);
    }
    hide WellFormed, ServiceIds, KeyedByOwnId, ServicesSound, ServicesComplete, ConnectionsPlaced, SubscriptionsIndexed;
    hide RoleIndexed, Stored;
    RolesSplit(s.normal, s.admin, s.endpoints, s.store, ServiceIds(s));
  }

  lemma RolesSplit(normal: map<EndpointId, Endpoint>, admin: map<EndpointId, Endpoint>,
                   endpoints: map<EndpointId, Endpoint>, store: map<Endpoint, Record>, services: set<EndpointId>)
    requires Stored(endpoints, store) && RoleIndexed(normal, endpoints, store, Normal)
    requires RoleIndexed(admin, endpoints, store, Admin) && RoleIndexed(map[], endpoints, store, Undefined)
    requires forall id :: id in services <==> id in endpoints && store[endpoints[id]].role == Service
    ensures endpoints.Keys == normal.Keys + admin.Keys + services
    ensures normal.Keys !! admin.Keys !! services
  {
    assert forall id | id in endpoints :: store[endpoints[id]].role != Undefined;
  }

  lemma ServiceIdsAre(s: State, id: EndpointId)
    requires Inv(s)
    ensures id in ServiceIds(s) <==> id in s.endpoints && s.store[s.endpoints[id]].role == Service
  {
    if id in ServiceIds(s) {
      var t, e :| t in s.services && e in s.services[t] && IdOf(s, e) == id;
      assert Serves(s.endpoints, s.store, s.ids, t, e);
    }
    if id in s.endpoints && s.store[s.endpoints[id]].role == Service {
      var e := s.endpoints[id];
      SeatFacts(s, id, s.store[e].svcType);
      KeyFacts(s, id);
      assert InService(s.services, s.store[e].svcType, e);
    }
  }

  /** In every reachable state the total of endpoints is the normal, the admin and the service total together. */
  lemma TotalsAddUp(r: Run, i: nat, st: Stats)
    requires IsAllowedRun(r) && i < |r.states| && WellFormed(r.states[i]) && ReportsTotals(r.states[i], st)
    ensures st.total == st.normalTotal + st.adminTotal + st.svcEpTotal
  {
    var s := r.states[i];
    ReachableInv(r, i);
    hide IsAllowedRun, Inv, ServiceIds;
    KeysSplit(s);
    assert |s.endpoints.Keys| == |s.normal.Keys| + |s.admin.Keys| + |ServiceIds(s)|;
  }

  // ----- The lists are a permutation of the keys -----

  // The per-type lists one after the other, types below n in ascending order.
  ghost function Flattened(lists: map<ServiceType, seq<EndpointId>>, n: nat): seq<EndpointId>
    requires n <= 0x100
  {
    if n == 0 then []
    else Flattened(lists, n - 1) + if n - 1 in lists then lists[n - 1] else []
  }

  ghost function ServiceKeysBelow(s: State, n: nat): set<EndpointId>
    requires WellFormed(s)
  {
    set id | id in s.endpoints && s.store[s.endpoints[id]].role == Service && s.store[s.endpoints[id]].svcType < n
  }

  ghost function ServiceKeysOf(s: State, t: nat): set<EndpointId>
    requires WellFormed(s)
  {
    set id | id in s.endpoints && s.store[s.endpoints[id]].role == Service && s.store[s.endpoints[id]].svcType == t
  }

  lemma TallyIs(s: State, t: ServiceType, id: EndpointId)
    requires Inv(s)
    ensures ServiceSet(s.services, t) <= s.store.Keys
    ensures Tally(s, ServiceSet(s.services, t), id) == if id in ServiceKeysOf(s, t) then 1 else 0
  {
    var found := set e | e in ServiceSet(s.services, t) && IdOf(s, e) == id;
    if id in s.endpoints {
      SeatFacts(s, id, t);
      KeyFacts(s, id);
    }
    forall e | e in found ensures id in s.endpoints && e == s.endpoints[id] {
      assert InService(s.services, t, e) && Serves(s.endpoints, s.store, s.ids, t, e);
    }
    hide Inv;
    if id in ServiceKeysOf(s, t) {
      assert found == {s.endpoints[id]};
    } else {
      assert found == {};
    }
  }

  lemma ServiceListIs(s: State, t: ServiceType, q: seq<EndpointId>)
    requires Inv(s) && ListsService(s, t, q)
    ensures multiset(q) == multiset(ServiceKeysOf(s, t))
  {
    forall id: EndpointId ensures multiset(q)[id] == multiset(ServiceKeysOf(s, t))[id] {
      TallyIs(s, t, id);
    }
    hide Inv, ServiceKeysOf, ListsService;
  }

  lemma {:induction false} FlattenedIs(s: State, st: Stats, n: nat)
    requires Inv(s) && ReportsDetails(s, st) && n <= 0x100
    ensures multiset(Flattened(st.serviceIds, n)) == multiset(ServiceKeysBelow(s, n))
    decreases n
  {
    if n == 0 {
      assert ServiceKeysBelow(s, 0) == {};
    } else {
      FlattenedIs(s, st, n - 1);
      OneTypeListed(s, st, n - 1);
      BelowNext(s, n - 1);
      hide Inv, ReportsDetails, ServiceKeysBelow, ServiceKeysOf;
      assert multiset(ServiceKeysBelow(s, n)) == multiset(ServiceKeysBelow(s, n - 1)) + multiset(ServiceKeysOf(s, n - 1));
    }
  }

  lemma BelowNext(s: State, n: nat)
    requires WellFormed(s)
    ensures ServiceKeysBelow(s, n + 1) == ServiceKeysBelow(s, n) + ServiceKeysOf(s, n)
    ensures ServiceKeysBelow(s, n) !! ServiceKeysOf(s, n)
  {
  }

  lemma OneTypeListed(s: State, st: Stats, t: ServiceType)
    requires Inv(s) && ReportsDetails(s, st)
    ensures multiset(if t in st.serviceIds then st.serviceIds[t] else []) == multiset(ServiceKeysOf(s, t))
  {
    if t in st.serviceIds {
      ServiceListIs(s, t, st.serviceIds[t]);
    } else {
      forall id | id in ServiceKeysOf(s, t) ensures false {
        SeatFacts(s, id, t);
      }
    }
  }

  lemma {:induction false} AscendingLists(q: seq<EndpointId>, ids: set<EndpointId>)
    requires Ascending(q, ids)
    ensures Lists(q, ids)
    decreases |q|
  {
    if q == [] {
      assert ids == {};
    } else {
      var front, last := q[..|q| - 1], q[|q| - 1];
      AscendingFront(q, ids);
      AscendingLists(front, ids - {last});
      assert q == front + [last];
      assert ids == ids - {last} + {last};
    }
  }

  lemma ServiceIdsBelow(s: State)
    requires Inv(s)
    ensures ServiceIds(s) == ServiceKeysBelow(s, 0x100)
  {
    forall id: EndpointId ensures id in ServiceIds(s) <==> id in ServiceKeysBelow(s, 0x100) {
      ServiceIdsAre(s, id);
    }
    hide Inv, ServiceIds, ServiceKeysBelow;
  }

  lemma ThreeLists(s: State, p: seq<EndpointId>, q: seq<EndpointId>, o: seq<EndpointId>)
    requires Inv(s) && Ascending(p, s.normal.Keys) && Ascending(q, s.admin.Keys)
    requires multiset(o) == multiset(ServiceIds(s))
    ensures Lists(p + q + o, s.endpoints.Keys)
  {
    KeysSplit(s);
    hide Inv, ServiceIds;
    AscendingLists(p, s.normal.Keys);
    AscendingLists(q, s.admin.Keys);
    hide Ascending;
    DisjointMultisets(s.normal.Keys, s.admin.Keys, ServiceIds(s));
  }

  /** In every reachable state the three detailed id lists together are a permutation of the endpoint keys. */
  lemma ListsArePermutation(r: Run, i: nat, st: Stats)
    requires IsAllowedRun(r) && i < |r.states| && WellFormed(r.states[i]) && ReportsDetails(r.states[i], st)
    ensures Lists(st.normalIds + st.adminIds + Flattened(st.serviceIds, 0x100), r.states[i].endpoints.Keys)
  {
    var s := r.states[i];
    ReachableInv(r, i);
    hide IsAllowedRun, Inv, Flattened, ServiceIds, ServiceKeysBelow, Lists, Ascending, ListsService;
    FlattenedIs(s, st, 0x100);
    ServiceIdsBelow(s);
    ThreeLists(s, st.normalIds, st.adminIds, Flattened(st.serviceIds, 0x100));
  }

  lemma DisjointMultisets(a: set<EndpointId>, b: set<EndpointId>, c: set<EndpointId>)
    requires a !! b !! c
    ensures multiset(a + b + c) == multiset(a) + multiset(b) + multiset(c)
  {
  }

  // ----- Which number and which list is whose -----

  ghost function KeysIn(s: State, role: Role): set<EndpointId>
    requires WellFormed(s)
  {
    set id | id in s.endpoints && s.store[s.endpoints[id]].role == role
  }

  lemma RoleKeys(s: State)
    requires Inv(s)
    ensures s.normal.Keys == KeysIn(s, Normal) && s.admin.Keys == KeysIn(s, Admin) && ServiceIds(s) == KeysIn(s, Service)
  {
    forall id: EndpointId ensures id in ServiceIds(s) <==> id in KeysIn(s, Service) {
      ServiceIdsAre(s, id);
    }
    hide ServiceIds, ServicesSound, ServicesComplete, ConnectionsPlaced, SubscriptionsIndexed;
  }

  ghost function Fds(cs: set<Connection>): set<Fd> {
    set c | c in cs :: c.fd
  }

  lemma {:induction false} FdsCount(cs: set<Connection>)
    requires forall c, d | c in cs && d in cs && c.fd == d.fd :: c == d
    ensures |Fds(cs)| == |cs|
    decreases |cs|
  {
    if cs != {} {
      var c :| c in cs;
      FdsCount(cs - {c});
      assert Fds(cs) == Fds(cs - {c}) + {c.fd};
    }
  }

  lemma PendingCounted(open: set<Connection>, pending: map<Fd, Connection>, registered: set<Connection>)
    requires PendingIs(open, pending, registered)
    ensures |pending| == |open - registered|
  {
    FdsCount(open - registered);
    assert pending.Keys == Fds(open - registered);
  }

  /** The reported totals are the numbers of registered ids in each role, by the records, and of the open connections
      without a successful registration. */
  lemma TotalsByRole(r: Run, i: nat, st: Stats)
    requires IsAllowedRun(r) && i < |r.states| && WellFormed(r.states[i]) && ReportsTotals(r.states[i], st)
    ensures var s := r.states[i];
            && st.total == |s.endpoints| && st.normalTotal == |KeysIn(s, Normal)| && st.adminTotal == |KeysIn(s, Admin)|
            && st.svcEpTotal == |KeysIn(s, Service)|
            && st.pendingTotal == |s.open - Registered(r, i)|
  {
    var s := r.states[i];
    ReachableInv(r, i);
    PendingExact(r, i);
    RoleKeys(s);
    PendingCounted(s.open, s.pending, Registered(r, i));
    hide IsAllowedRun, Inv, ServiceIds, KeysIn, PendingIs, Registered;
  }

  /** The detailed lists are those of their roles: normal and admin ids in ascending order, and for each service type the
      ids of the services of that type, with no list for a type that has none. */
  lemma ListsByRole(r: Run, i: nat, st: Stats, t: ServiceType)
    requires IsAllowedRun(r) && i < |r.states| && WellFormed(r.states[i]) && ReportsDetails(r.states[i], st)
    ensures var s := r.states[i];
            && Ascending(st.normalIds, KeysIn(s, Normal)) && Ascending(st.adminIds, KeysIn(s, Admin))
            && multiset(if t in st.serviceIds then st.serviceIds[t] else []) == multiset(ServiceKeysOf(s, t))
            && (t in st.serviceIds <==> ServiceKeysOf(s, t) != {})
  {
    var s := r.states[i];
    ReachableInv(r, i);
    RoleKeys(s);
    OneTypeListed(s, st, t);
    hide IsAllowedRun;
    if t in st.serviceIds {
      ListedNotEmpty(s, st, t);
    }
    hide Inv, ServiceIds, KeysIn, ServiceKeysOf, ListsService, Ascending;
  }

  lemma ListedNotEmpty(s: State, st: Stats, t: ServiceType)
    requires Inv(s) && ReportsDetails(s, st) && t in st.serviceIds
    ensures ServiceKeysOf(s, t) != {}
  {
    var e :| e in s.services[t];
    assert Serves(s.endpoints, s.store, s.ids, t, e);
    assert s.ids[s.store[e].conn] in ServiceKeysOf(s, t);
    hide RoleIndexed, ServicesComplete, ConnectionsPlaced, SubscriptionsIndexed, Ascending, ListsService;
  }

  // ----- The totals and lists of the two indexes -----

  ghost function ServedTypes(s: State): set<ServiceType>
    requires WellFormed(s)
  {
    set id | id in s.endpoints && s.store[s.endpoints[id]].role == Service :: s.store[s.endpoints[id]].svcType
  }

  ghost function SubscribedTypes(s: State): set<MessageId>
    requires WellFormed(s)
  {
    set id, m | id in s.endpoints && m in s.store[s.endpoints[id]].subsMessages :: m
  }

  ghost function SubscribersTo(s: State, m: MessageId): set<EndpointId>
    requires WellFormed(s)
  {
    set id | id in s.endpoints && m in s.store[s.endpoints[id]].subsMessages
  }

  ghost function SomeSubscription(s: State): set<EndpointId>
    requires WellFormed(s)
  {
    set id | id in s.endpoints && s.store[s.endpoints[id]].subsMessages != {}
  }

  lemma ServedTypesAre(s: State)
    requires Inv(s) && NoEmptyEntry(s.services)
    ensures s.services.Keys == ServedTypes(s)
  {
    forall t: ServiceType ensures t in s.services <==> t in ServedTypes(s) {
      if t in s.services {
        EntryIsServed(s, t);
      }
      ServedHasEntry(s, t);
      assert Served(s, t) <==> t in ServedTypes(s);
    }
    hide Inv, ServedTypes, Served, NoEmptyEntry;
  }

  lemma SubscribersAre(s: State, m: MessageId)
    requires Inv(s) && SubscriptionsSound(s.subscribers, s.endpoints, s.store)
    ensures Subscribed(s.subscribers, m) == SubscribersTo(s, m)
    ensures m in s.subscribers <==> SubscribersTo(s, m) != {}
  {
    hide RoleIndexed, ServicesSound, ServicesComplete, ConnectionsPlaced, KeyedByOwnId;
    assert forall id | id in s.endpoints && m in s.store[s.endpoints[id]].subsMessages :: id in Subscribed(s.subscribers, m);
  }

  lemma InvWellFormed(s: State)
    requires Inv(s)
    ensures WellFormed(s)
  {
  }

  lemma SubscribedTypesAre(s: State)
    requires Inv(s) && SubscriptionsSound(s.subscribers, s.endpoints, s.store)
    ensures s.subscribers.Keys == SubscribedTypes(s) && SubscriberIds(s.subscribers) == SomeSubscription(s)
  {
    hide Inv, SubscriptionsSound;
    InvWellFormed(s);
    hide WellFormed;
    forall m: MessageId
      ensures m in s.subscribers <==> SubscribersTo(s, m) != {}
      ensures Subscribed(s.subscribers, m) == SubscribersTo(s, m)
    {
      SubscribersAre(s, m);
    }
    TypesFromSubscribers(s);
    forall id: EndpointId ensures id in SubscriberIds(s.subscribers) <==> id in SomeSubscription(s) {
      SubscriberIsIn(s, id);
    }
  }

  lemma TypesFromSubscribers(s: State)
    requires WellFormed(s) && forall m: MessageId :: m in s.subscribers <==> SubscribersTo(s, m) != {}
    ensures s.subscribers.Keys == SubscribedTypes(s)
  {
    forall m: MessageId ensures m in SubscribedTypes(s) <==> SubscribersTo(s, m) != {} {
      if m in SubscribedTypes(s) {
        var id :| id in s.endpoints && m in s.store[s.endpoints[id]].subsMessages;
        assert id in SubscribersTo(s, m);
      }
      if SubscribersTo(s, m) != {} {
        var id :| id in SubscribersTo(s, m);
      }
    }
    hide WellFormed, SubscribedTypes, SubscribersTo;
  }

  lemma SubscriberIsIn(s: State, id: EndpointId)
    requires WellFormed(s) && forall m: MessageId :: Subscribed(s.subscribers, m) == SubscribersTo(s, m)
    ensures id in SubscriberIds(s.subscribers) <==> id in SomeSubscription(s)
  {
    if id in SubscriberIds(s.subscribers) {
      var m :| m in s.subscribers && id in s.subscribers[m];
      assert id in Subscribed(s.subscribers, m);
    }
    if id in SomeSubscription(s) {
      var m :| m in s.store[s.endpoints[id]].subsMessages;
      assert id in SubscribersTo(s, m);
    }
  }

  /** Until the first close the two indexes are counted as the records say: the types somebody serves, the message types
      somebody subscribes to, and the endpoints that subscribe to anything. */
  lemma IndexTotals(r: Run, i: nat, st: Stats)
    requires IsAllowedRun(r) && i < |r.states| && NoClose(r, i)
    requires WellFormed(r.states[i]) && ReportsTotals(r.states[i], st)
    ensures var s := r.states[i];
            && st.svcTypeTotal == |ServedTypes(s)| && st.msgTypeTotal == |SubscribedTypes(s)|
            && st.msgEpTotal == |SomeSubscription(s)|
  {
    var s := r.states[i];
    ReachableInv(r, i);
    NoCloseNoEmptyEntry(r, i);
    NoCloseSound(r, i);
    hide IsAllowedRun, Inv, NoEmptyEntry, SubscriptionsSound, ServedTypes, SubscribedTypes, SomeSubscription, SubscriberIds;
    ServedTypesAre(s);
    SubscribedTypesAre(s);
  }

  /** And the subscribers of a message type are listed in ascending order, with no list for a type without any. */
  lemma SubscriberLists(r: Run, i: nat, st: Stats, m: MessageId)
    requires IsAllowedRun(r) && i < |r.states| && NoClose(r, i)
    requires WellFormed(r.states[i]) && ReportsDetails(r.states[i], st)
    ensures m in st.subscriberIds <==> SubscribersTo(r.states[i], m) != {}
    ensures m in st.subscriberIds ==> Ascending(st.subscriberIds[m], SubscribersTo(r.states[i], m))
  {
    var s := r.states[i];
    ReachableInv(r, i);
    NoCloseSound(r, i);
    SubscribersAre(s, m);
    hide IsAllowedRun, Inv, SubscriptionsSound, SubscribersTo, Ascending, ListsService;
  }
}
