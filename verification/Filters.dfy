/** The filter sets are last-writer-wins over the commands an endpoint has sent. */
module Filters {
  import opened SwitchTypes
  import opened Entities
  import opened Registry
  import opened RegistryInvariant
  import opened Runs
  import opened Routing

  datatype Field = Forwards | SourceWhitelist | SourceBlacklist | TypeWhitelist | TypeBlacklist

  predicate Member(r: Record, f: Field, x: Word) {
    match f
    case Forwards => x in r.fwdTargets
    case SourceWhitelist => x in r.subsSources
    case SourceBlacklist => x in r.rejSources
    case TypeWhitelist => x < 0x1_0000 && x in r.subsMessages
    case TypeBlacklist => x < 0x1_0000 && x in r.rejMessages
  }

  // Whether the command is about x in this set, and whether it then adds or takes it away.
  predicate Names(cmd: FilterCommand, f: Field, x: Word) {
    match f
    case Forwards => (cmd.Forward? || cmd.Unforward?) && x in cmd.targets
    case SourceWhitelist => (cmd.Subscribe? || cmd.Unsubscribe?) && x in cmd.sources
    case SourceBlacklist => (cmd.Reject? || cmd.Unreject?) && x in cmd.sources
    case TypeWhitelist => (cmd.Subscribe? || cmd.Unsubscribe?) && x < 0x1_0000 && x in cmd.messages
    case TypeBlacklist => (cmd.Reject? || cmd.Unreject?) && x < 0x1_0000 && x in cmd.messages
  }

  predicate Adds(cmd: FilterCommand) {
    cmd.Forward? || cmd.Subscribe? || cmd.Reject?
  }

  function AppliedAll(r: Record, cmds: seq<FilterCommand>): Record {
    if cmds == [] then r else Applied(AppliedAll(r, cmds[..|cmds| - 1]), cmds[|cmds| - 1])
  }

  // The verdict of the last command that names x; none if no command does.
  function LastWord(cmds: seq<FilterCommand>, f: Field, x: Word): Option<bool> {
    if cmds == [] then None
    else
      var last := cmds[|cmds| - 1];
      if Names(last, f, x) then Some(Adds(last)) else LastWord(cmds[..|cmds| - 1], f, x)
  }

  lemma OneCommand(r: Record, cmd: FilterCommand, f: Field, x: Word)
    ensures Member(Applied(r, cmd), f, x) <==> if Names(cmd, f, x) then Adds(cmd) else Member(r, f, x)
  {
    match cmd
    case Forward(_) =>
    case Unforward(_) =>
    case Subscribe(_, _) =>
    case Unsubscribe(_, _) =>
    case Reject(_, _) =>
    case Unreject(_, _) =>
  }

  /** After any commands, x is in a set exactly when the last command naming it added it. */
  lemma {:induction false} LastWriterWins(r: Record, cmds: seq<FilterCommand>, f: Field, x: Word)
    ensures Member(AppliedAll(r, cmds), f, x)
            <==> match LastWord(cmds, f, x) case None => Member(r, f, x) case Some(added) => added
    decreases |cmds|
  {
    hide Member, Names, Adds, Applied;
    if cmds != [] {
      var front := cmds[..|cmds| - 1];
      LastWriterWins(r, front, f, x);
      OneCommand(AppliedAll(r, front), cmds[|cmds| - 1], f, x);
    }
  }

  predicate NoFilters(r: Record) {
    r.fwdTargets == {} && r.subsSources == {} && r.rejSources == {} && r.subsMessages == {} && r.rejMessages == {}
  }

  // Listed by the history: the last command that names it added it.
  predicate Listed(cmds: seq<FilterCommand>, f: Field, x: Word) {
    LastWord(cmds, f, x) == Some(true)
  }

  // The closed formula of the routing decision: what an endpoint that has sent these commands takes from `source`.
  ghost predicate Admits(cmds: seq<FilterCommand>, source: EndpointId, m: MessageId) {
    && !Listed(cmds, SourceBlacklist, source)
    && (Listed(cmds, SourceWhitelist, source) || forall x :: !Listed(cmds, SourceWhitelist, x))
    && (m > 0 ==>
          && !Listed(cmds, TypeBlacklist, m)
          && (Listed(cmds, TypeWhitelist, m) || forall x :: !Listed(cmds, TypeWhitelist, x)))
  }

  /** The routing decision, read off the commands that the target has sent since it was created. */
  lemma DecisionFromHistory(r: Record, cmds: seq<FilterCommand>, source: EndpointId, m: MessageId)
    requires NoFilters(r)
    ensures Takes(AppliedAll(r, cmds), source, m) <==> Admits(cmds, source, m)
  {
    var now := AppliedAll(r, cmds);
    forall f: Field, x: Word ensures Member(now, f, x) <==> Listed(cmds, f, x) {
      LastWriterWins(r, cmds, f, x);
    }
    hide Listed, AppliedAll;
    assert Member(now, SourceBlacklist, source) <==> source in now.rejSources;
    assert Member(now, SourceWhitelist, source) <==> source in now.subsSources;
    assert Member(now, TypeBlacklist, m) <==> m in now.rejMessages;
    assert Member(now, TypeWhitelist, m) <==> m in now.subsMessages;
    EmptyLists(now);
  }

  lemma EmptyLists(r: Record)
    ensures r.subsSources == {} <==> forall x :: !Member(r, SourceWhitelist, x)
    ensures r.subsMessages == {} <==> forall x :: !Member(r, TypeWhitelist, x)
  {
    if r.subsSources != {} {
      var x :| x in r.subsSources;
      assert Member(r, SourceWhitelist, x);
    }
    if r.subsMessages != {} {
      var x :| x in r.subsMessages;
      assert Member(r, TypeWhitelist, x);
    }
  }

  // ----- The history of an endpoint in a run -----

  predicate SameFilters(p: Record, q: Record) {
    && p.fwdTargets == q.fwdTargets && p.subsSources == q.subsSources && p.rejSources == q.rejSources
    && p.subsMessages == q.subsMessages && p.rejMessages == q.rejMessages
  }

  // What connection `c` sends with this event, if the server heeds it.
  ghost function Heeded(s: State, ev: Event, c: Connection): seq<FilterCommand> {
    if ev.Filtering? && ev.c == c && OwnsEndpoint(s, c) && !ev.filter.NamesNothing() then [ev.filter] else []
  }

  ghost function History(r: Run, j: nat, c: Connection): seq<FilterCommand>
    requires Starts(r) && j < |r.states|
    decreases j
  {
    if j == 0 then [] else History(r, j - 1, c) + Heeded(r.states[j - 1], r.events[j - 1], c)
  }

  ghost predicate EndpointOf(s: State, c: Connection, e: Endpoint) {
    c in s.ids && s.ids[c] in s.endpoints && s.endpoints[s.ids[c]] == e && e in s.store
  }

  function Blank(c: Connection): Record {
    Record(Undefined, "", c, 0, {}, {}, {}, {}, {})
  }

  lemma OthersDiffer(s: State, c: Connection, d: Connection)
    requires Inv(s) && OwnsEndpoint(s, c) && d in s.open && c != d
    ensures c in s.ids && d in s.ids && s.ids[c] != s.ids[d]
    ensures s.ids[c] in s.endpoints && (s.ids[d] in s.endpoints ==> s.endpoints[s.ids[d]] != s.endpoints[s.ids[c]])
  {
  }

  // `e` keeps its key and its filters.
  ghost predicate Keeps(s: State, s': State, c: Connection, e: Endpoint, r: Record)
    requires c in s.ids
  {
    && e in s'.store && SameFilters(s'.store[e], r)
    && s.ids[c] in s'.endpoints && s'.endpoints[s.ids[c]] == e
  }

  lemma RejoinKeepsFilters(s: State, d: Connection, cmd: RegisterCommand, id: EndpointId, token: string, c: Connection,
                           e: Endpoint)
    requires WellFormed(s) && id in s.endpoints && EndpointOf(s, c, e)
    requires s.store[s.endpoints[id]].conn.fd == d.fd
    ensures Keeps(s, Rejoin(s, d, cmd, id, token), c, e, s.store[e])
  {
    RejoinParts(s, d, cmd, id, token);
    hide Rejoin, WellFormed, MovedRole, Reseat, TokenMatches;
  }

  lemma EnrolKeepsFilters(s: State, d: Connection, cmd: RegisterCommand, id: EndpointId, created: Endpoint, token: string,
                          c: Connection, e: Endpoint)
    requires id !in s.endpoints && created !in s.store && EndpointOf(s, c, e)
    ensures Keeps(s, Enrol(s, d, cmd, id, created, token), c, e, s.store[e])
  {
    hide InsertService;
  }

  lemma RegisteringKeeps(s: State, ev: Event, c: Connection, e: Endpoint)
    requires WellFormed(s) && Allowed(s, ev) && ev.Registering? && EndpointOf(s, c, e)
    ensures Keeps(s, Next(s, ev), c, e, s.store[e])
  {
    var Registering(d, cmd, drawn, created, token) := ev;
    var id := ChosenId(cmd, drawn);
    if Accepted(s, d, cmd, id) {
      if id in s.endpoints {
        RejoinKeepsFilters(s, d, cmd, id, token, c, e);
      } else {
        EnrolKeepsFilters(s, d, cmd, id, created, token, c, e);
      }
    }
    hide WellFormed, Rejoin, Enrol, NoOtherCarries;
  }

  lemma FilterKeeps(s: State, d: Endpoint, cmd: FilterCommand, c: Connection, e: Endpoint)
    requires WellFormed(s) && d in s.store && EndpointOf(s, c, e)
    ensures Keeps(s, Filter(s, d, cmd), c, e,
                  if d == e && !cmd.NamesNothing() then Applied(s.store[e], cmd) else s.store[e])
  {
    hide WellFormed, Reindexed, Applied;
  }

  lemma FilteringKeeps(s: State, d: Connection, filter: FilterCommand, c: Connection, e: Endpoint)
    requires Inv(s) && d in s.open && OwnsEndpoint(s, c) && EndpointOf(s, c, e)
    ensures Keeps(s, Next(s, Filtering(d, filter)), c, e, AppliedAll(s.store[e], Heeded(s, Filtering(d, filter), c)))
  {
    OpenKnown(s);
    NoneApplied(s.store[e]);
    OneApplied(s.store[e], filter);
    if s.ids[d] in s.endpoints {
      MemberStored(s, s.ids[d]);
      FilterKeeps(s, s.endpoints[s.ids[d]], filter, c, e);
      if d != c {
        OthersDiffer(s, c, d);
      }
      hide Inv, WellFormed, Applied, Filter, AppliedAll, Keeps;
    } else {
      hide Inv, WellFormed, Applied, Filter, AppliedAll, OwnsEndpoint;
      assert d != c;
    }
  }

  lemma ClosingKeeps(s: State, d: Connection, c: Connection, e: Endpoint)
    requires Inv(s) && d in s.open && d != c && OwnsEndpoint(s, c) && EndpointOf(s, c, e)
    ensures Keeps(s, Closed(s, d), c, e, s.store[e])
  {
    OpenKnown(s);
    OthersDiffer(s, c, d);
    RemoveKeeps(s, s.ids[d]);
    hide Inv, RemoveEndpoint, WellFormed;
  }

  lemma AllowedSender(s: State, ev: Event)
    requires WellFormed(s) && Allowed(s, ev)
    ensures Possible(s, ev) && (ev.Filtering? || ev.ConnectionClosed? ==> ev.c in s.open)
  {
    hide WellFormed;
  }

  // One event, for a connection that owns its endpoint before and after.
  lemma FiltersStep(s: State, ev: Event, c: Connection, e: Endpoint)
    requires Inv(s) && Allowed(s, ev) && OwnsEndpoint(s, c) && c in Next(s, ev).open && EndpointOf(s, c, e)
    ensures EndpointOf(Next(s, ev), c, e)
    ensures SameFilters(Next(s, ev).store[e], AppliedAll(s.store[e], Heeded(s, ev, c)))
  {
    OwnerStaysOneStep(s, ev, c);
    KeepsStep(s, ev, c, e);
    hide Inv, WellFormed, Keeps, Next, Allowed, Heeded, AppliedAll;
    KeptIs(s, Next(s, ev), c, e, AppliedAll(s.store[e], Heeded(s, ev, c)));
  }

  lemma KeepsStep(s: State, ev: Event, c: Connection, e: Endpoint)
    requires Inv(s) && Allowed(s, ev) && OwnsEndpoint(s, c) && c in Next(s, ev).open && EndpointOf(s, c, e)
    ensures Keeps(s, Next(s, ev), c, e, AppliedAll(s.store[e], Heeded(s, ev, c)))
  {
    AllowedSender(s, ev);
    if ev.ConnectionClosed? {
      AnotherCloses(s, ev, c);
    }
    hide Inv, WellFormed, Keeps, Next, Allowed, Possible, OwnsEndpoint, EndpointOf;
    match ev
    case Registering(_, _, _, _, _) =>
      RegisteringKeeps(s, ev, c, e);
    case Filtering(d, filter) =>
      FilteringKeeps(s, d, filter, c, e);
    case ConnectionClosed(d) =>
      ClosingKeeps(s, d, c, e);
      NextClosed(s, d);
    case _ =>
      OthersKeep(s, ev, c, e);
  }

  lemma AnotherCloses(s: State, ev: Event, c: Connection)
    requires WellFormed(s) && Possible(s, ev) && c in Next(s, ev).open && ev.ConnectionClosed?
    ensures ev.c != c
  {
    NextConnections(s, ev);
    hide WellFormed, Next;
  }

  lemma NextClosed(s: State, d: Connection)
    requires WellFormed(s) && d in s.open
    ensures Next(s, ConnectionClosed(d)) == Closed(s, d)
  {
    hide Closed, WellFormed;
  }

  lemma OthersKeep(s: State, ev: Event, c: Connection, e: Endpoint)
    requires WellFormed(s) && Possible(s, ev) && EndpointOf(s, c, e)
    requires !ev.Registering? && !ev.Filtering? && !ev.ConnectionClosed?
    ensures Keeps(s, Next(s, ev), c, e, s.store[e])
  {
    hide WellFormed;
  }

  lemma KeptIs(s: State, s': State, c: Connection, e: Endpoint, r: Record)
    requires c in s.ids && c in s'.ids && s'.ids[c] == s.ids[c] && Keeps(s, s', c, e, r)
    ensures EndpointOf(s', c, e) && SameFilters(s'.store[e], r)
  {
  }

  lemma OneApplied(r: Record, cmd: FilterCommand)
    ensures AppliedAll(r, [cmd]) == Applied(r, cmd)
  {
    assert [cmd][..0] == [];
    hide Applied;
  }

  lemma NoneApplied(r: Record)
    ensures AppliedAll(r, []) == r
  {
  }

  lemma RemoveKeeps(s: State, id: EndpointId)
    requires WellFormed(s)
    ensures RemoveEndpoint(s, id).store == s.store && RemoveEndpoint(s, id).ids == s.ids
    ensures forall j | j in s.endpoints && j != id ::
              j in RemoveEndpoint(s, id).endpoints && RemoveEndpoint(s, id).endpoints[j] == s.endpoints[j]
  {
    RemoveFrame(s, id);
    hide WellFormed;
  }

  // The event by which a connection comes to own its endpoint.
  lemma FiltersAtBirth(s: State, ev: Event, c: Connection)
    requires Inv(s) && Allowed(s, ev) && !OwnsEndpoint(s, c) && OwnsEndpoint(Next(s, ev), c)
    ensures c in s.open && !ev.Filtering?
    ensures exists e :: EndpointOf(Next(s, ev), c, e) && NoFilters(Next(s, ev).store[e])
  {
    NextConnections(s, ev);
    if ev.ConnectionReady? {
      PendingFresh(s, ev.c);
    }
    hide WellFormed;
    assert ev.Registering? && ev.c == c by { hide Inv, Next; }
    BirthIsEnrolment(s, ev);
    hide Inv, Next;
    assert EndpointOf(Next(s, ev), c, ev.created);
  }

  lemma BirthIsEnrolment(s: State, ev: Event)
    requires Inv(s) && Allowed(s, ev) && ev.Registering? && !OwnsEndpoint(s, ev.c) && OwnsEndpoint(Next(s, ev), ev.c)
    ensures EndpointOf(Next(s, ev), ev.c, ev.created) && NoFilters(Next(s, ev).store[ev.created])
  {
    var Registering(c, cmd, drawn, created, token) := ev;
    var id := ChosenId(cmd, drawn);
    if Accepted(s, c, cmd, id) && id in s.endpoints {
      OwnerIsNotPending(s, c, id);
    }
    EnrolledBlank(s, c, cmd, id, created, token);
    hide Inv, Rejoin, Enrol, WellFormed, Accepted, EndpointOf, NoFilters;
  }

  lemma EnrolledBlank(s: State, c: Connection, cmd: RegisterCommand, id: EndpointId, e: Endpoint, token: string)
    ensures var s' := Enrol(s, c, cmd, id, e, token);
            forall pending :: EndpointOf(s'.(pending := pending), c, e) && NoFilters(s'.store[e])
  {
    hide InsertService;
  }

  lemma HistoryStep(r: Run, j: nat, c: Connection)
    requires Starts(r) && j < |r.events|
    ensures History(r, j + 1, c) == History(r, j, c) + Heeded(r.states[j], r.events[j], c)
  {
  }

  // What a connection sent before it owned an endpoint was not heeded.
  lemma {:induction false} NothingHeededYet(r: Run, j: nat, c: Connection)
    requires IsAllowedRun(r) && j < |r.states| && !OwnsEndpoint(r.states[j], c)
    requires c in r.states[j].open || c !in r.states[j].ids
    ensures History(r, j, c) == []
    decreases j
  {
    if j > 0 {
      HistoryStep(r, j - 1, c);
      NotOwnerBefore(r, j - 1, c);
      hide IsAllowedRun, OwnsEndpoint, History;
      NothingHeededYet(r, j - 1, c);
    }
  }

  lemma NotOwnerBefore(r: Run, j: nat, c: Connection)
    requires IsAllowedRun(r) && j < |r.events| && !OwnsEndpoint(r.states[j + 1], c)
    requires c in r.states[j + 1].open || c !in r.states[j + 1].ids
    ensures !OwnsEndpoint(r.states[j], c) && (c in r.states[j].open || c !in r.states[j].ids)
  {
    hide OwnsEndpoint;
    ReachableWellFormed(r, j);
    OpenKnown(r.states[j]);
    StaysKnown(r, j, j + 1);
    if OwnsEndpoint(r.states[j], c) {
      OwnedOpen(r.states[j], c);
      OwnerKept(r, j, c);
    }
    if c in r.states[j].ids {
      OpenEarlier(r, j, c);
    }
  }

  lemma OwnedOpen(s: State, c: Connection)
    requires OwnsEndpoint(s, c)
    ensures c in s.open && c in s.ids
  {
  }

  // The endpoint of `c` has the filters that its history gives.
  ghost predicate Told(s: State, c: Connection, history: seq<FilterCommand>) {
    exists e :: e in s.store && EndpointOf(s, c, e) && SameFilters(s.store[e], AppliedAll(Blank(c), history))
  }

  lemma {:induction false} SameFiltersApplied(p: Record, q: Record, cmds: seq<FilterCommand>)
    requires SameFilters(p, q)
    ensures SameFilters(AppliedAll(p, cmds), AppliedAll(q, cmds))
  {
    if cmds != [] {
      SameFiltersApplied(p, q, cmds[..|cmds| - 1]);
    }
  }

  lemma AppliedConcat(r: Record, p: seq<FilterCommand>, q: seq<FilterCommand>)
    requires |q| <= 1
    ensures AppliedAll(r, p + q) == AppliedAll(AppliedAll(r, p), q)
  {
    hide Applied;
    if q == [] {
      assert p + q == p;
    } else {
      assert (p + q)[..|p + q| - 1] == p && q[..0] == [];
    }
  }

  lemma ToldStep(s: State, ev: Event, c: Connection, history: seq<FilterCommand>)
    requires Inv(s) && Allowed(s, ev) && OwnsEndpoint(s, c) && c in Next(s, ev).open && Told(s, c, history)
    ensures Told(Next(s, ev), c, history + Heeded(s, ev, c))
  {
    var e :| e in s.store && EndpointOf(s, c, e) && SameFilters(s.store[e], AppliedAll(Blank(c), history));
    FiltersStep(s, ev, c, e);
    var more := Heeded(s, ev, c);
    hide Inv, Allowed, Next, WellFormed, OwnsEndpoint, EndpointOf;
    AppliedConcat(Blank(c), history, more);
    SameFiltersApplied(s.store[e], AppliedAll(Blank(c), history), more);
    hide AppliedAll, Heeded;
    assert SameFilters(Next(s, ev).store[e], AppliedAll(Blank(c), history + more));
  }

  lemma ToldAtBirth(s: State, ev: Event, c: Connection)
    requires Inv(s) && Allowed(s, ev) && !OwnsEndpoint(s, c) && OwnsEndpoint(Next(s, ev), c)
    ensures c in s.open && Told(Next(s, ev), c, Heeded(s, ev, c))
  {
    FiltersAtBirth(s, ev, c);
    hide Inv, Allowed, Next, WellFormed, OwnsEndpoint, EndpointOf;
    assert AppliedAll(Blank(c), []) == Blank(c);
  }

  lemma ToldNext(r: Run, j: nat, c: Connection)
    requires IsAllowedRun(r) && j < |r.events| && OwnsEndpoint(r.states[j + 1], c)
    requires OwnsEndpoint(r.states[j], c) ==> Told(r.states[j], c, History(r, j, c))
    ensures Told(r.states[j + 1], c, History(r, j + 1, c))
  {
    ReachableInv(r, j);
    AllowedStep(r, j);
    HistoryStep(r, j, c);
    OwnedOpen(r.states[j + 1], c);
    hide IsRun, Inv, Next, Allowed, WellFormed, Possible, OwnsEndpoint, Told, History, Heeded;
    var s, ev := r.states[j], r.events[j];
    if OwnsEndpoint(s, c) {
      ToldStep(s, ev, c, History(r, j, c));
    } else {
      ToldAtBirth(s, ev, c);
      NothingHeededYet(r, j, c);
      assert [] + Heeded(s, ev, c) == Heeded(s, ev, c);
    }
  }

  /** In every reachable state the filters of an endpoint are those of the commands its connection has sent. */
  lemma {:induction false} HistoryTells(r: Run, j: nat, c: Connection)
    requires IsAllowedRun(r) && j < |r.states| && OwnsEndpoint(r.states[j], c)
    ensures Told(r.states[j], c, History(r, j, c))
    decreases j
  {
    NobodyAtFirst(r, j, c);
    hide OwnsEndpoint, Told, History;
    if OwnsEndpoint(r.states[j - 1], c) {
      HistoryTells(r, j - 1, c);
    }
    ToldNext(r, j - 1, c);
  }

  lemma NobodyAtFirst(r: Run, j: nat, c: Connection)
    requires Starts(r) && j < |r.states| && OwnsEndpoint(r.states[j], c)
    ensures j > 0
  {
    hide WellFormed;
  }

  /** In every reachable state, whether the owner of `c` takes a message is decided by what `c` has sent. */
  lemma DecisionInRun(r: Run, j: nat, c: Connection, source: EndpointId, m: MessageId)
    requires IsAllowedRun(r) && j < |r.states| && OwnsEndpoint(r.states[j], c)
    ensures var s, cmds := r.states[j], History(r, j, c);
            && c in s.ids && s.ids[c] in s.endpoints && s.endpoints[s.ids[c]] in s.store
            && (Takes(s.store[s.endpoints[s.ids[c]]], source, m) <==> Admits(cmds, source, m))
  {
    HistoryTells(r, j, c);
    hide IsAllowedRun, OwnsEndpoint, History, Listed, Admits;
    DecisionFromHistory(Blank(c), History(r, j, c), source, m);
  }

  // ----- Who receives, in a run -----

  // The endpoint of a connection that owns one.
  ghost function OwnEndpoint(s: State, c: Connection): Endpoint
    requires Inv(s) && OwnsEndpoint(s, c)
  {
    OwnedIs(s, c);
    s.endpoints[s.ids[c]]
  }

  lemma OwnedFacts(s: State, c: Connection)
    requires Inv(s) && OwnsEndpoint(s, c)
    ensures WellFormed(s) && c in s.ids && s.ids[c] in s.endpoints && OwnEndpoint(s, c) == s.endpoints[s.ids[c]]
    ensures OwnEndpoint(s, c) in s.store && s.store[OwnEndpoint(s, c)].conn == c && IdOf(s, OwnEndpoint(s, c)) == s.ids[c]
  {
    OwnedIs(s, c);
    hide Inv;
  }

  /** In every reachable state, whether a message goes from the endpoint of `c` to that of `d` is decided by what `d` has
      sent about the id of `c`. */
  lemma DecisionBetween(r: Run, j: nat, c: Connection, d: Connection, m: MessageId)
    requires IsAllowedRun(r) && j < |r.states| && OwnsEndpoint(r.states[j], c) && OwnsEndpoint(r.states[j], d)
    ensures Inv(r.states[j]) && c in r.states[j].ids && d in r.states[j].ids
    ensures OwnEndpoint(r.states[j], c) in r.states[j].store && OwnEndpoint(r.states[j], d) in r.states[j].store
    ensures var s := r.states[j];
            ForwardingAllowed(s, OwnEndpoint(s, c), OwnEndpoint(s, d), m)
            <==> s.ids[c] != s.ids[d] && Admits(History(r, j, d), s.ids[c], m)
  {
    ReachableInv(r, j);
    var s := r.states[j];
    OwnedFacts(s, c);
    OwnedFacts(s, d);
    DecisionInRun(r, j, d, s.ids[c], m);
    hide IsAllowedRun, Inv, OwnsEndpoint, History, Admits, Takes;
  }

  // What a forward set lets through: everything, when nothing is listed in it or the id 0 is.
  ghost predicate Passes(cmds: seq<FilterCommand>, id: EndpointId) {
    Listed(cmds, Forwards, id) || Listed(cmds, Forwards, 0) || forall x :: !Listed(cmds, Forwards, x)
  }

  lemma ForwardSetTold(s: State, c: Connection, cmds: seq<FilterCommand>, id: EndpointId)
    requires Inv(s) && OwnsEndpoint(s, c) && Told(s, c, cmds)
    ensures OwnEndpoint(s, c) in s.store
    ensures var fwd := s.store[OwnEndpoint(s, c)].fwdTargets; fwd == {} || 0 in fwd || id in fwd <==> Passes(cmds, id)
  {
    OwnedFacts(s, c);
    var e := OwnEndpoint(s, c);
    hide Inv, OwnsEndpoint;
    assert SameFilters(s.store[e], AppliedAll(Blank(c), cmds));
    var now := AppliedAll(Blank(c), cmds);
    forall x: Word ensures Member(now, Forwards, x) <==> Listed(cmds, Forwards, x) {
      LastWriterWins(Blank(c), cmds, Forwards, x);
    }
    hide AppliedAll, Listed;
    if now.fwdTargets != {} {
      var x :| x in now.fwdTargets;
      assert Member(now, Forwards, x);
    }
    assert Member(now, Forwards, 0) <==> 0 in now.fwdTargets;
    assert Member(now, Forwards, id) <==> id in now.fwdTargets;
  }

  lemma NormalOwner(s: State, d: Connection)
    requires Inv(s) && OwnsEndpoint(s, d)
    ensures d in s.ids && OwnEndpoint(s, d) in s.store
    ensures s.ids[d] in s.normal <==> s.store[OwnEndpoint(s, d)].role == Normal
    ensures s.ids[d] in s.normal ==> s.normal[s.ids[d]] == OwnEndpoint(s, d)
  {
    OwnedFacts(s, d);
    hide ServicesSound, ServicesComplete, ConnectionsPlaced, SubscriptionsIndexed;
  }

  /** In every reachable state a plain publish of `c` reaches exactly the other normal endpoints that admit it and that its
      own forward commands let through. */
  lemma PlainInRun(r: Run, j: nat, c: Connection, d: Connection)
    requires IsAllowedRun(r) && j < |r.states| && OwnsEndpoint(r.states[j], c) && OwnsEndpoint(r.states[j], d)
    ensures Inv(r.states[j]) && c in r.states[j].ids && d in r.states[j].ids
    ensures OwnEndpoint(r.states[j], c) in r.states[j].store && OwnEndpoint(r.states[j], d) in r.states[j].store
    ensures var s := r.states[j];
            var e := OwnEndpoint(s, c);
            s.ids[d] in PlainIds(s, e, s.store[e].fwdTargets)
            <==> && s.store[OwnEndpoint(s, d)].role == Normal && s.ids[c] != s.ids[d]
                 && Admits(History(r, j, d), s.ids[c], 0) && Passes(History(r, j, c), s.ids[d])
  {
    DecisionBetween(r, j, c, d, 0);
    HistoryTells(r, j, c);
    var s := r.states[j];
    ForwardSetTold(s, c, History(r, j, c), s.ids[d]);
    NormalOwner(s, d);
    hide IsAllowedRun, Inv, OwnsEndpoint, History, Admits, ForwardingAllowed, Told, Passes;
  }

  /** Until the first close a typed publish by the index reaches exactly the other endpoints whose last word on the type
      was to subscribe and that admit it. */
  lemma TypedInRun(r: Run, j: nat, c: Connection, d: Connection, m: MessageId)
    requires IsAllowedRun(r) && j < |r.states| && OwnsEndpoint(r.states[j], c) && OwnsEndpoint(r.states[j], d)
    requires NoClose(r, j) && m > 0
    ensures Inv(r.states[j]) && c in r.states[j].ids && d in r.states[j].ids && OwnEndpoint(r.states[j], c) in r.states[j].store
    ensures var s := r.states[j];
            s.ids[d] in TypedIds(s, OwnEndpoint(s, c), m)
            <==> && s.ids[c] != s.ids[d] && Admits(History(r, j, d), s.ids[c], m)
                 && Listed(History(r, j, d), TypeWhitelist, m)
  {
    DecisionBetween(r, j, c, d, m);
    HistoryTells(r, j, d);
    var s := r.states[j];
    OwnedFacts(s, c);
    OwnedFacts(s, d);
    TypedIsScan(r, j, OwnEndpoint(s, c), m);
    WhitelistTold(s, d, History(r, j, d), m);
    hide IsAllowedRun, Inv, OwnsEndpoint, History, Admits, ForwardingAllowed, Told, Listed;
  }

  lemma WhitelistTold(s: State, d: Connection, cmds: seq<FilterCommand>, m: MessageId)
    requires Inv(s) && OwnsEndpoint(s, d) && Told(s, d, cmds)
    ensures OwnEndpoint(s, d) in s.store
    ensures m in s.store[OwnEndpoint(s, d)].subsMessages <==> Listed(cmds, TypeWhitelist, m)
  {
    OwnedFacts(s, d);
    hide Inv, OwnsEndpoint;
    var now := AppliedAll(Blank(d), cmds);
    assert SameFilters(s.store[OwnEndpoint(s, d)], now);
    LastWriterWins(Blank(d), cmds, TypeWhitelist, m);
    hide AppliedAll, Listed;
    assert Member(now, TypeWhitelist, m) <==> m in now.subsMessages;
  }
}
