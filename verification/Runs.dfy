/** Whole runs of the server: what holds in every reachable state. */
module Runs {
  import opened SwitchTypes
  import opened Entities
  import opened Registry
  import opened RegistryInvariant

  // `states[i]` is the state before `events[i]`.
  datatype Run = Run(states: seq<State>, events: seq<Event>)

  ghost predicate Starts(r: Run) {
    |r.states| == |r.events| + 1 && r.states[0] == EMPTY
  }

  ghost predicate Steps(r: Run, i: nat)
    requires |r.states| == |r.events| + 1
  {
    && i < |r.events| && WellFormed(r.states[i]) && Possible(r.states[i], r.events[i])
    && r.states[i + 1] == Next(r.states[i], r.events[i])
  }

  // Any events the environment can produce.
  ghost predicate IsRun(r: Run) {
    Starts(r) && forall i: nat | i < |r.events| :: Steps(r, i)
  }

  // The same under E1, E2 and E3.
  ghost predicate IsAllowedRun(r: Run) {
    IsRun(r) && forall i: nat | i < |r.events| :: AllowedAt(r, i)
  }

  ghost predicate AllowedAt(r: Run, i: nat)
    requires |r.states| == |r.events| + 1
  {
    i < |r.events| && WellFormed(r.states[i]) && Allowed(r.states[i], r.events[i])
  }

  lemma Step(r: Run, i: nat)
    requires IsRun(r) && i < |r.events|
    ensures WellFormed(r.states[i]) && Possible(r.states[i], r.events[i]) && r.states[i + 1] == Next(r.states[i], r.events[i])
  {
    assert Steps(r, i);
  }

  lemma AllowedStep(r: Run, i: nat)
    requires IsAllowedRun(r) && i < |r.events|
    ensures WellFormed(r.states[i]) && Allowed(r.states[i], r.events[i])
    ensures Possible(r.states[i], r.events[i]) && r.states[i + 1] == Next(r.states[i], r.events[i])
  {
    assert Steps(r, i) && AllowedAt(r, i);
  }

  lemma AllowedIsRun(r: Run)
    requires IsAllowedRun(r)
    ensures IsRun(r) && |r.states| == |r.events| + 1
  {
  }

  // One more step.
  function Extended(r: Run, ev: Event, s: State): Run {
    Run(r.states + [s], r.events + [ev])
  }

  ghost predicate Ends(r: Run, s: State) {
    |r.states| == |r.events| + 1 && r.states[|r.events|] == s
  }

  lemma Extends(r: Run, ev: Event, s: State)
    requires IsRun(r) && WellFormed(r.states[|r.events|]) && Possible(r.states[|r.events|], ev)
    requires s == Next(r.states[|r.events|], ev)
    ensures IsRun(Extended(r, ev, s)) && Ends(Extended(r, ev, s), s)
  {
    var q := Extended(r, ev, s);
    forall i: nat | i < |q.events| ensures Steps(q, i) {
      if i < |r.events| {
        Step(r, i);
        assert q.states[i] == r.states[i] && q.states[i + 1] == r.states[i + 1] && q.events[i] == r.events[i];
      }
    }
    hide WellFormed, Possible, Next, Steps;
  }

  lemma EmptyInv()
    ensures Inv(EMPTY)
  {
  }

  lemma StepKeepsInv(r: Run, i: nat)
    requires IsAllowedRun(r) && i < |r.events| && Inv(r.states[i])
    ensures Inv(r.states[i + 1])
  {
    hide Inv, Next, WellFormed, Possible, Allowed;
    AllowedStep(r, i);
    hide IsRun, IsAllowedRun;
    NextKeepsInv(r.states[i], r.events[i]);
  }

  /** Every reachable state is in agreement. */
  lemma {:induction false} ReachableInv(r: Run, i: nat)
    requires IsAllowedRun(r) && i < |r.states|
    ensures Inv(r.states[i])
    decreases i
  {
    EmptyInv();
    hide Inv;
    if i > 0 {
      ReachableInv(r, i - 1);
      StepKeepsInv(r, i - 1);
    }
  }

  lemma {:induction false} ReachableWellFormed(r: Run, i: nat)
    requires IsRun(r) && i < |r.states|
    ensures WellFormed(r.states[i])
    decreases i
  {
    if i > 0 {
      ReachableWellFormed(r, i - 1);
      Step(r, i - 1);
      NextWellFormed(r.states[i - 1], r.events[i - 1]);
    }
  }

  // ----- Pending connections -----

  ghost predicate Registers(s: State, ev: Event)
    requires WellFormed(s)
  {
    ev.Registering? && Accepted(s, ev.c, ev.cmd, ChosenId(ev.cmd, ev.drawn))
  }

  // The connections of the successful registrations among the first i events.
  ghost function Registered(r: Run, i: nat): set<Connection>
    requires IsRun(r) && i <= |r.events|
    decreases i
  {
    if i == 0 then {}
    else
      assert Steps(r, i - 1);
      Registered(r, i - 1)
         + if Registers(r.states[i - 1], r.events[i - 1]) then {r.events[i - 1].c} else {}
  }

  // Of the open connections exactly those that are not in `registered` are pending, each under its descriptor.
  ghost predicate PendingIs(open: set<Connection>, pending: map<Fd, Connection>, registered: set<Connection>) {
    && (forall c, d | c in open && d in open && c.fd == d.fd :: c == d)
    && (forall fd | fd in pending :: pending[fd] in open && pending[fd].fd == fd)
    && (forall c | c in open :: if c in registered then c.fd !in pending else c.fd in pending && pending[c.fd] == c)
  }

  lemma PendingReady(open: set<Connection>, pending: map<Fd, Connection>, registered: set<Connection>, c: Connection)
    requires PendingIs(open, pending, registered) && c !in registered && forall d | d in open :: d.fd != c.fd
    ensures c.fd !in pending && PendingIs(open + {c}, pending[c.fd := c], registered)
  {
  }

  lemma PendingRegistered(open: set<Connection>, pending: map<Fd, Connection>, registered: set<Connection>, c: Connection)
    requires PendingIs(open, pending, registered) && c in open
    ensures PendingIs(open, pending - {c.fd}, registered + {c})
  {
  }

  lemma PendingClosed(open: set<Connection>, pending: map<Fd, Connection>, registered: set<Connection>, c: Connection)
    requires PendingIs(open, pending, registered) && c in open
    ensures PendingIs(open - {c}, pending - {c.fd}, registered)
  {
  }

  // What each step does to the open and the pending connections.
  lemma NextConnections(s: State, ev: Event)
    requires WellFormed(s) && Possible(s, ev)
    ensures var s' := Next(s, ev);
            match ev
            case ConnectionReady(c, _) =>
              s'.open == s.open + {c} && (c.fd !in s.pending ==> s'.pending == s.pending[c.fd := c])
            case ConnectionClosed(c) => s'.open == s.open - {c} && s'.pending == s.pending - {c.fd}
            case Registering(c, _, _, _, _) =>
              s'.open == s.open && s'.pending == if Registers(s, ev) then s.pending - {c.fd} else s.pending
            case _ => s'.open == s.open && s'.pending == s.pending
  {
    match ev
    case Registering(c, cmd, drawn, e, token) =>
      var id := ChosenId(cmd, drawn);
      if id in s.endpoints {
        RejoinConnections(s, c, cmd, id, token);
        hide Rejoin;
      }
      hide WellFormed;
    case ConnectionClosed(c) =>
      RemoveFrame(s, s.ids[c]);
    case _ =>
  }

  lemma RejoinConnections(s: State, c: Connection, cmd: RegisterCommand, id: EndpointId, token: string)
    requires WellFormed(s) && id in s.endpoints
    ensures var s' := Rejoin(s, c, cmd, id, token);
            && s'.open == s.open && s'.pending == s.pending && s'.ids == s.ids && s'.endpoints == s.endpoints
            && s'.subscribers == s.subscribers
  {
    MemberStored(s, id);
    hide WellFormed, RoleOf, TokenMatches, SwitchRole, InsertService, EraseService;
    var e, role := s.endpoints[id], RoleOf(cmd.role);
    var now := Reconnected(s.store[e], c, role, TokenMatches(s, e, cmd), token);
    SwitchRoleFrame(s.(store := s.store[e := now]), id, e, role, cmd.svcType);
  }

  lemma NextIds(s: State, ev: Event)
    requires WellFormed(s) && Possible(s, ev)
    ensures Next(s, ev).ids
            == match ev
               case ConnectionReady(c, id) => s.ids[c := id]
               case Registering(c, cmd, drawn, _, _) =>
                 var id := ChosenId(cmd, drawn);
                 if Registers(s, ev) && id !in s.endpoints then s.ids[c := id] else s.ids
               case _ => s.ids
  {
    match ev
    case Registering(c, cmd, drawn, e, token) =>
      var id := ChosenId(cmd, drawn);
      if id in s.endpoints {
        RejoinConnections(s, c, cmd, id, token);
        hide Rejoin;
      }
      hide WellFormed;
    case ConnectionClosed(c) =>
      RemoveFrame(s, s.ids[c]);
      hide RemoveEndpoint;
    case _ =>
  }

  lemma NextKnows(s: State, ev: Event)
    requires WellFormed(s) && Possible(s, ev)
    ensures s.ids.Keys <= Next(s, ev).ids.Keys && ev.c in Next(s, ev).ids
  {
    OpenKnown(s);
    NextIds(s, ev);
    hide WellFormed, Next, Accepted;
  }

  lemma PendingStep(s: State, ev: Event, before: set<Connection>)
    requires WellFormed(s) && Possible(s, ev) && before <= s.ids.Keys && PendingIs(s.open, s.pending, before)
    ensures var after := before + if Registers(s, ev) then {ev.c} else {};
            PendingIs(Next(s, ev).open, Next(s, ev).pending, after) && after <= Next(s, ev).ids.Keys
  {
    NextConnections(s, ev);
    NextKnows(s, ev);
    hide WellFormed, PendingIs, Next;
    match ev
    case ConnectionReady(c, _) => PendingReady(s.open, s.pending, before, c);
    case ConnectionClosed(c) => PendingClosed(s.open, s.pending, before, c);
    case Registering(c, _, _, _, _) => PendingRegistered(s.open, s.pending, before, c);
    case _ =>
  }

  /** In every run, with or without E1 to E3, `pending_clients` is exactly the open connections that have had no
      successful registration. */
  lemma {:induction false} PendingExact(r: Run, i: nat)
    requires IsRun(r) && i <= |r.events|
    ensures PendingIs(r.states[i].open, r.states[i].pending, Registered(r, i))
    ensures Registered(r, i) <= r.states[i].ids.Keys
    decreases i
  {
    hide WellFormed, Next, Possible;
    if i > 0 {
      PendingExact(r, i - 1);
      Step(r, i - 1);
      hide IsRun, PendingIs;
      PendingStep(r.states[i - 1], r.events[i - 1], Registered(r, i - 1));
    }
  }

  // ----- Connections that own an endpoint -----

  ghost predicate OwnsEndpoint(s: State, c: Connection) {
    WellFormed(s) && c in s.open && c.fd !in s.pending
  }

  lemma OwnedIs(s: State, c: Connection)
    requires Inv(s) && OwnsEndpoint(s, c)
    ensures c in s.ids && s.ids[c] in s.endpoints && s.endpoints[s.ids[c]] in s.store
    ensures s.store[s.endpoints[s.ids[c]]].conn == c
  {
  }

  lemma AllowedFacts(s: State, ev: Event)
    requires Inv(s) && Allowed(s, ev)
    ensures WellFormed(s) && Possible(s, ev)
  {
  }

  lemma OwnerStaysOneStep(s: State, ev: Event, c: Connection)
    requires Inv(s) && Allowed(s, ev) && OwnsEndpoint(s, c) && c in Next(s, ev).open
    ensures OwnsEndpoint(Next(s, ev), c) && c in s.ids && c in Next(s, ev).ids && Next(s, ev).ids[c] == s.ids[c]
  {
    hide Inv, WellFormed, Next, Accepted;
    AllowedFacts(s, ev);
    NextWellFormed(s, ev);
    NextConnections(s, ev);
    NextIds(s, ev);
    OpenKnown(s);
    if ev.ConnectionReady? {
      PendingFresh(s, ev.c);
    }
  }

  // A connection is opened once.
  lemma OpenBefore(s: State, ev: Event, c: Connection)
    requires WellFormed(s) && Possible(s, ev) && c in s.ids && c in Next(s, ev).open
    ensures c in s.open
  {
    NextConnections(s, ev);
    hide WellFormed, Next;
  }

  lemma {:induction false} StaysKnown(r: Run, i: nat, j: nat)
    requires IsRun(r) && i <= j < |r.states|
    ensures r.states[i].ids.Keys <= r.states[j].ids.Keys
    decreases j
  {
    if i < j {
      hide WellFormed, Next, Possible;
      StaysKnown(r, i, j - 1);
      Step(r, j - 1);
      hide IsRun;
      NextKnows(r.states[j - 1], r.events[j - 1]);
    }
  }

  lemma OwnerKept(r: Run, j: nat, c: Connection)
    requires IsAllowedRun(r) && j < |r.events| && OwnsEndpoint(r.states[j], c) && c in r.states[j + 1].open
    ensures OwnsEndpoint(r.states[j + 1], c) && c in r.states[j].ids && c in r.states[j + 1].ids
    ensures r.states[j + 1].ids[c] == r.states[j].ids[c]
  {
    assert Starts(r);
    hide Next, Possible, Allowed, Inv, OwnsEndpoint, WellFormed, IsRun;
    ReachableInv(r, j);
    AllowedStep(r, j);
    hide IsAllowedRun;
    OwnerStaysOneStep(r.states[j], r.events[j], c);
  }

  lemma OpenEarlier(r: Run, j: nat, c: Connection)
    requires IsRun(r) && j < |r.events| && c in r.states[j].ids && c in r.states[j + 1].open
    ensures c in r.states[j].open
  {
    hide Next, Possible, WellFormed;
    Step(r, j);
    hide IsRun;
    OpenBefore(r.states[j], r.events[j], c);
  }

  /** Once registered, a connection keeps its endpoint and its id for as long as it stays open. */
  lemma {:induction false} OwnerStays(r: Run, i: nat, j: nat, c: Connection)
    requires IsAllowedRun(r) && i <= j < |r.states| && OwnsEndpoint(r.states[i], c) && c in r.states[j].open
    ensures OwnsEndpoint(r.states[j], c) && c in r.states[i].ids && c in r.states[j].ids
    ensures r.states[j].ids[c] == r.states[i].ids[c]
    decreases j
  {
    hide Inv, OwnsEndpoint, IsRun, IsAllowedRun;
    AllowedIsRun(r);
    ReachableInv(r, i);
    OwnedIs(r.states[i], c);
    if i < j {
      StaysKnown(r, i, j - 1);
      OpenEarlier(r, j - 1, c);
      OwnerStays(r, i, j - 1, c);
      OwnerKept(r, j - 1, c);
    }
  }

  // ----- Runs in which no connection closes -----

  // The subscriber index holds nothing but live subscriptions.
  ghost predicate SubscriptionsSound(index: map<MessageId, set<EndpointId>>, endpoints: map<EndpointId, Endpoint>,
                                     store: map<Endpoint, Record>)
    requires Stored(endpoints, store)
  {
    forall m, id | m in index && id in index[m] :: id in endpoints && m in store[endpoints[id]].subsMessages
  }

  lemma SoundAfterEnrol(index: map<MessageId, set<EndpointId>>, endpoints: map<EndpointId, Endpoint>,
                        store: map<Endpoint, Record>, id: EndpointId, e: Endpoint, r: Record)
    requires Stored(endpoints, store) && SubscriptionsSound(index, endpoints, store) && id !in endpoints && e !in store
    ensures Stored(endpoints[id := e], store[e := r]) && SubscriptionsSound(index, endpoints[id := e], store[e := r])
  {
  }

  lemma SoundAfterChange(index: map<MessageId, set<EndpointId>>, endpoints: map<EndpointId, Endpoint>,
                         store: map<Endpoint, Record>, e: Endpoint, r: Record)
    requires Stored(endpoints, store) && SubscriptionsSound(index, endpoints, store)
    requires e in store && r.subsMessages == store[e].subsMessages
    ensures Stored(endpoints, store[e := r]) && SubscriptionsSound(index, endpoints, store[e := r])
  {
  }

  lemma SoundAfterFilter(index: map<MessageId, set<EndpointId>>, endpoints: map<EndpointId, Endpoint>,
                         store: map<Endpoint, Record>, ids: map<Connection, EndpointId>, open: set<Connection>,
                         id: EndpointId, e: Endpoint, cmd: FilterCommand)
    requires Stored(endpoints, store) && SubscriptionsSound(index, endpoints, store)
    requires KeyedByOwnId(endpoints, store, ids, open) && Holds(endpoints, store, id, e)
    ensures Stored(endpoints, store[e := Applied(store[e], cmd)])
    ensures SubscriptionsSound(Reindexed(index, cmd, id), endpoints, store[e := Applied(store[e], cmd)])
  {
    assert forall j | j in endpoints && endpoints[j] == e :: j == id;
    var after := Reindexed(index, cmd, id);
    forall m, j | m in after && j in after[m]
      ensures j in endpoints && m in store[e := Applied(store[e], cmd)][endpoints[j]].subsMessages
    {
      ReindexedAt(index, cmd, id, m);
      assert j in Subscribed(after, m);
    }
  }

  lemma SoundAfterStep(s: State, ev: Event)
    requires Inv(s) && Allowed(s, ev) && !ev.ConnectionClosed?
    requires SubscriptionsSound(s.subscribers, s.endpoints, s.store)
    ensures var s' := Next(s, ev);
            Stored(s'.endpoints, s'.store) && SubscriptionsSound(s'.subscribers, s'.endpoints, s'.store)
  {
    match ev
    case Registering(c, cmd, drawn, e, token) =>
      var id := ChosenId(cmd, drawn);
      if Accepted(s, c, cmd, id) {
        if id in s.endpoints {
          SoundAfterRejoin(s, c, cmd, id, token);
        } else {
          var t := if RoleOf(cmd.role).Service? then cmd.svcType else 0;
          SoundAfterEnrol(s.subscribers, s.endpoints, s.store, id, e,
                          Record(RoleOf(cmd.role), token, c, t, {}, {}, {}, {}, {}));
        }
        hide Inv, WellFormed, SubscriptionsSound, Stored, Rejoin;
      }
    case Filtering(c, filter) =>
      var id := s.ids[c];
      if id in s.endpoints {
        KeyFacts(s, id);
        SoundAfterFilter(s.subscribers, s.endpoints, s.store, s.ids, s.open, id, s.endpoints[id], filter);
        hide Inv, WellFormed, SubscriptionsSound, Stored, Reindexed, Applied;
      }
    case _ =>
  }

  lemma SoundAfterRejoin(s: State, c: Connection, cmd: RegisterCommand, id: EndpointId, token: string)
    requires Inv(s) && id in s.endpoints && s.store[s.endpoints[id]].conn.fd == c.fd
    requires SubscriptionsSound(s.subscribers, s.endpoints, s.store)
    ensures var s' := Rejoin(s, c, cmd, id, token);
            Stored(s'.endpoints, s'.store) && SubscriptionsSound(s'.subscribers, s'.endpoints, s'.store)
  {
    RejoinParts(s, c, cmd, id, token);
    MemberStored(s, id);
    hide Rejoin, WellFormed, Stored, SubscriptionsSound, MovedRole, Reseat;
    var e := s.endpoints[id];
    SoundAfterChange(s.subscribers, s.endpoints, s.store, e,
                     Rejoined(s.store[e], cmd, token, TokenMatches(s, e, cmd) || RoleOf(cmd.role) != s.store[e].role));
  }

  ghost predicate NoClose(r: Run, i: nat) {
    forall k | 0 <= k < i && k < |r.events| :: !r.events[k].ConnectionClosed?
  }

  lemma SoundStep(r: Run, i: nat)
    requires IsAllowedRun(r) && i < |r.events| && !r.events[i].ConnectionClosed? && Inv(r.states[i])
    requires SubscriptionsSound(r.states[i].subscribers, r.states[i].endpoints, r.states[i].store)
    ensures var s := r.states[i + 1];
            Stored(s.endpoints, s.store) && SubscriptionsSound(s.subscribers, s.endpoints, s.store)
  {
    hide Next, WellFormed, Possible, Allowed, SubscriptionsSound;
    AllowedStep(r, i);
    hide IsRun, IsAllowedRun;
    SoundAfterStep(r.states[i], r.events[i]);
  }

  lemma EmptySound()
    ensures Stored(EMPTY.endpoints, EMPTY.store)
    ensures SubscriptionsSound(EMPTY.subscribers, EMPTY.endpoints, EMPTY.store)
  {
  }

  /** Until the first close, the subscriber index is exactly the live whitelists. */
  lemma {:induction false} NoCloseSound(r: Run, i: nat)
    requires IsAllowedRun(r) && i < |r.states| && NoClose(r, i)
    ensures var s := r.states[i];
            Stored(s.endpoints, s.store) && SubscriptionsSound(s.subscribers, s.endpoints, s.store)
    decreases i
  {
    EmptySound();
    hide SubscriptionsSound, Inv;
    if i > 0 {
      NoCloseSound(r, i - 1);
      ReachableInv(r, i - 1);
      SoundStep(r, i - 1);
    }
  }
}
