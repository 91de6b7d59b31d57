/** What a publish sends, counted connection by connection. */
module Delivery {
  import opened SwitchTypes
  import opened Entities
  import opened Registry
  import opened RegistryInvariant
  import opened Routing
  import opened Network
  import opened CommandHandler
  import SwitchService

  // The connection of the endpoint registered under an id.
  function ConnectionOf(s: State, id: EndpointId): Connection
    requires id in s.endpoints && s.endpoints[id] in s.store
  {
    s.store[s.endpoints[id]].conn
  }

  // Endpoints that the registry holds under their own ids.
  ghost predicate AllRegistered(s: State, targets: seq<Endpoint>) {
    forall k | 0 <= k < |targets| :: Live(s.endpoints, s.store, s.ids, targets[k])
  }

  // A part of the registry: what is under an id in the index is under it in the registry.
  ghost predicate PartOf(index: map<EndpointId, Endpoint>, s: State) {
    forall id | id in index :: id in s.endpoints && index[id] == s.endpoints[id]
  }

  lemma LiveHasConnection(s: State, e: Endpoint, id: EndpointId)
    requires Inv(s) && id in s.endpoints && Live(s.endpoints, s.store, s.ids, e)
    ensures s.endpoints[id] in s.store && (s.store[e].conn == ConnectionOf(s, id) <==> e == s.endpoints[id])
  {
    hide RoleIndexed, ServicesSound, ServicesComplete, ConnectionsPlaced, SubscriptionsIndexed;
  }

  /** Copies are sent to a connection as often as its endpoint is a target. */
  lemma {:induction false} SentCounts(s: State, targets: seq<Endpoint>, bytes: seq<Byte>, id: EndpointId)
    requires Inv(s) && AllRegistered(s, targets) && id in s.endpoints
    ensures s.endpoints[id] in s.store
    ensures Count(Sent(ConnectionOf(s, id), bytes), SentAll(s, targets, bytes)) == Count(s.endpoints[id], targets)
    decreases |targets|
  {
    MemberStored(s, id);
    if targets != [] {
      var front, last := targets[..|targets| - 1], targets[|targets| - 1];
      assert Live(s.endpoints, s.store, s.ids, last);
      LiveHasConnection(s, last, id);
      SentCounts(s, front, bytes, id);
      hide Inv;
      CountAppend(Sent(ConnectionOf(s, id), bytes), SentAll(s, front, bytes), [Sent(s.store[last].conn, bytes)]);
    }
  }

  lemma {:induction false} WalkCounts(s: State, index: map<EndpointId, Endpoint>, q: seq<EndpointId>, id: EndpointId)
    requires Inv(s) && PartOf(index, s) && id in index && forall x | x in q :: x in index
    ensures Count(s.endpoints[id], EndpointsOf(index, q)) == Count(id, q)
    decreases |q|
  {
    if q != [] {
      var front, last := q[..|q| - 1], q[|q| - 1];
      WalkCounts(s, index, front, id);
      if last != id {
        assert last in index;
        RecipientsHaveOwnConnections(s, last, id);
      }
      hide Inv;
      CountAppend(s.endpoints[id], EndpointsOf(index, front), [index[last]]);
    }
  }

  lemma {:induction false} AscendingCounts(q: seq<EndpointId>, ids: set<EndpointId>, id: EndpointId)
    requires Ascending(q, ids)
    ensures Count(id, q) == if id in ids then 1 else 0
    decreases |q|
  {
    if q == [] {
      assert id in ids ==> id in q;
    } else {
      AscendingFront(q, ids);
      LastIsGreatest(q, ids);
      AscendingCounts(q[..|q| - 1], ids - {q[|q| - 1]}, id);
    }
  }

  lemma {:induction false} WalkLength(index: map<EndpointId, Endpoint>, q: seq<EndpointId>)
    requires forall x | x in q :: x in index
    ensures |EndpointsOf(index, q)| == |q|
    decreases |q|
  {
    if q != [] {
      WalkLength(index, q[..|q| - 1]);
    }
  }

  lemma {:induction false} WalkRegistered(s: State, index: map<EndpointId, Endpoint>, q: seq<EndpointId>)
    requires Inv(s) && PartOf(index, s) && forall x | x in q :: x in index
    ensures AllRegistered(s, EndpointsOf(index, q))
    decreases |q|
  {
    if q != [] {
      WalkRegistered(s, index, q[..|q| - 1]);
      assert q[|q| - 1] in index;
      RegisteredLive(s, q[|q| - 1]);
      hide Inv, Live;
    }
  }

  lemma RegisteredLive(s: State, id: EndpointId)
    requires Inv(s) && id in s.endpoints
    ensures Live(s.endpoints, s.store, s.ids, s.endpoints[id])
  {
  }

  lemma {:induction false} SentLength(s: State, targets: seq<Endpoint>, bytes: seq<Byte>)
    requires AllRegistered(s, targets)
    ensures |SentAll(s, targets, bytes)| == |targets|
    decreases |targets|
  {
    if targets != [] {
      assert Live(s.endpoints, s.store, s.ids, targets[|targets| - 1]);
      SentLength(s, targets[..|targets| - 1], bytes);
    }
  }

  // What is sent for a set of ids, found in a part of the registry.
  lemma SetDelivered(s: State, index: map<EndpointId, Endpoint>, ids: set<EndpointId>, bytes: seq<Byte>, id: EndpointId)
    requires Inv(s) && PartOf(index, s) && ids <= index.Keys && id in s.endpoints
    ensures s.endpoints[id] in s.store
    ensures Count(Sent(ConnectionOf(s, id), bytes), SentAll(s, EndpointsOf(index, InOrder(ids)), bytes))
            == if id in ids then 1 else 0
    ensures |EndpointsOf(index, InOrder(ids))| == |ids| == |SentAll(s, EndpointsOf(index, InOrder(ids)), bytes)|
  {
    var q := InOrder(ids);
    assert forall x | x in q :: x in index;
    AscendingLength(q, ids);
    WalkLength(index, q);
    WalkRegistered(s, index, q);
    SentLength(s, EndpointsOf(index, q), bytes);
    SentCounts(s, EndpointsOf(index, q), bytes, id);
    AscendingCounts(q, ids, id);
    hide Inv;
    if id in index {
      WalkCounts(s, index, q, id);
    } else {
      NotFound(s, index, q, id);
    }
  }

  lemma {:induction false} NotFound(s: State, index: map<EndpointId, Endpoint>, q: seq<EndpointId>, id: EndpointId)
    requires Inv(s) && PartOf(index, s) && id in s.endpoints && id !in index && forall x | x in q :: x in index
    ensures Count(s.endpoints[id], EndpointsOf(index, q)) == 0
    decreases |q|
  {
    if q != [] {
      var front, last := q[..|q| - 1], q[|q| - 1];
      NotFound(s, index, front, id);
      assert last in index;
      RecipientsHaveOwnConnections(s, last, id);
      hide Inv;
      CountAppend(s.endpoints[id], EndpointsOf(index, front), [index[last]]);
    }
  }

  lemma NormalIsPart(s: State)
    requires Inv(s)
    ensures PartOf(s.normal, s) && PartOf(s.endpoints, s)
  {
  }

  // The report that follows the copies is not one of them.
  lemma ReportApart(log: seq<Effect>, sent: Effect, report: Effect)
    requires report.Result? && sent.Sent?
    ensures Count(sent, log + [report]) == Count(sent, log)
  {
    CountAppend(sent, log, [report]);
  }

  /** A plain publish sends one copy to each recipient's connection, none to any other endpoint's, and reports how many
      recipients there were. */
  lemma PlainDelivered(s: State, source: Endpoint, cmd: Byte, bytes: seq<Byte>, id: EndpointId)
    requires Inv(s) && source in s.store && id in s.endpoints
    ensures s.endpoints[id] in s.store
    ensures var ids := PlainIds(s, source, s.store[source].fwdTargets);
            var log := Published(s, source, cmd, PlainTargets(s, source), bytes);
            && Count(Sent(ConnectionOf(s, id), bytes), log) == (if id in ids then 1 else 0)
            && |log| == |ids| + 1 && log[|ids|] == Result(s.store[source].conn, cmd, 0, Some(|ids|))
  {
    var ids := PlainIds(s, source, s.store[source].fwdTargets);
    NormalIsPart(s);
    hide Inv;
    SetDelivered(s, s.normal, ids, bytes, id);
    ReportApart(SentAll(s, PlainTargets(s, source), bytes), Sent(ConnectionOf(s, id), bytes),
                Result(s.store[source].conn, cmd, 0, Some(|ids|)));
  }

  /** So does a typed publish that goes by the subscriber index. */
  lemma TypedDelivered(s: State, source: Endpoint, m: MessageId, cmd: Byte, bytes: seq<Byte>, id: EndpointId)
    requires Inv(s) && source in s.store && id in s.endpoints
    ensures s.endpoints[id] in s.store
    ensures var ids := TypedIds(s, source, m);
            var log := Published(s, source, cmd, TypedTargets(s, source, m), bytes);
            && Count(Sent(ConnectionOf(s, id), bytes), log) == (if id in ids then 1 else 0)
            && |log| == |ids| + 1 && log[|ids|] == Result(s.store[source].conn, cmd, 0, Some(|ids|))
  {
    var ids := TypedIds(s, source, m);
    NormalIsPart(s);
    hide Inv;
    SetDelivered(s, s.endpoints, ids, bytes, id);
    ReportApart(SentAll(s, TypedTargets(s, source, m), bytes), Sent(ConnectionOf(s, id), bytes),
                Result(s.store[source].conn, cmd, 0, Some(|ids|)));
  }

  lemma {:induction false} ExplicitRegistered(s: State, source: Endpoint, m: MessageId, ids: seq<EndpointId>)
    requires Inv(s) && source in s.store
    ensures AllRegistered(s, ExplicitTargets(s, source, m, ids))
    decreases |ids|
  {
    if ids != [] {
      var last := ids[|ids| - 1];
      ExplicitRegistered(s, source, m, ids[..|ids| - 1]);
      if last in s.endpoints {
        RegisteredLive(s, last);
      }
      hide Inv, Live, ForwardingAllowed;
    }
  }

  /** A publish to explicit targets sends an allowed endpoint as many copies as it is named, and any other none. */
  lemma ExplicitDelivered(s: State, source: Endpoint, m: MessageId, ids: seq<EndpointId>, cmd: Byte, bytes: seq<Byte>,
                          id: EndpointId)
    requires Inv(s) && source in s.store && id in s.endpoints
    ensures s.endpoints[id] in s.store
    ensures var log := Published(s, source, cmd, ExplicitTargets(s, source, m, ids), bytes);
            var total := |ExplicitTargets(s, source, m, ids)|;
            && Count(Sent(ConnectionOf(s, id), bytes), log)
               == (if ForwardingAllowed(s, source, s.endpoints[id], m) then Count(id, ids) else 0)
            && |log| == total + 1 && log[total] == Result(s.store[source].conn, cmd, 0, Some(total))
  {
    var targets := ExplicitTargets(s, source, m, ids);
    ExplicitRegistered(s, source, m, ids);
    ExplicitCounts(s, source, m, ids, id);
    SentCounts(s, targets, bytes, id);
    SentLength(s, targets, bytes);
    hide Inv, ForwardingAllowed;
    ReportApart(SentAll(s, targets, bytes), Sent(ConnectionOf(s, id), bytes),
                Result(s.store[source].conn, cmd, 0, Some(|targets|)));
  }

  // ----- The order of the copies -----

  lemma {:induction false} SentAt(s: State, targets: seq<Endpoint>, bytes: seq<Byte>, k: nat)
    requires AllRegistered(s, targets) && k < |targets|
    ensures targets[k] in s.store && |SentAll(s, targets, bytes)| == |targets|
    ensures SentAll(s, targets, bytes)[k] == Sent(s.store[targets[k]].conn, bytes)
    decreases |targets|
  {
    assert Live(s.endpoints, s.store, s.ids, targets[k]);
    SentLength(s, targets, bytes);
    var front := targets[..|targets| - 1];
    if k < |front| {
      SentAt(s, front, bytes, k);
    } else {
      SentLength(s, front, bytes);
    }
  }

  lemma {:induction false} WalkAt(index: map<EndpointId, Endpoint>, q: seq<EndpointId>, k: nat)
    requires k < |q| && forall x | x in q :: x in index
    ensures |EndpointsOf(index, q)| == |q| && EndpointsOf(index, q)[k] == index[q[k]]
    decreases |q|
  {
    WalkLength(index, q);
    var front := q[..|q| - 1];
    WalkLength(index, front);
    if k < |front| {
      WalkAt(index, front, k);
    }
  }

  lemma SetInOrder(s: State, index: map<EndpointId, Endpoint>, ids: set<EndpointId>, bytes: seq<Byte>,
                   q: seq<EndpointId>, k: nat)
    requires Inv(s) && PartOf(index, s) && ids <= index.Keys && Ascending(q, ids) && k < |q|
    ensures q[k] in s.endpoints && s.endpoints[q[k]] in s.store
    ensures |SentAll(s, EndpointsOf(index, InOrder(ids)), bytes)| == |q|
    ensures SentAll(s, EndpointsOf(index, InOrder(ids)), bytes)[k] == Sent(ConnectionOf(s, q[k]), bytes)
  {
    AscendingUnique(q, InOrder(ids), ids);
    assert q[k] in index && forall x | x in q :: x in index;
    WalkRegistered(s, index, q);
    WalkAt(index, q, k);
    MemberStored(s, q[k]);
    hide Inv, AllRegistered, Ascending;
    SentAt(s, EndpointsOf(index, q), bytes, k);
  }

  /** The copies of a plain publish are sent in the ascending order of the recipients' ids. */
  lemma PlainAscending(s: State, source: Endpoint, cmd: Byte, bytes: seq<Byte>, q: seq<EndpointId>, k: nat)
    requires Inv(s) && source in s.store && Ascending(q, PlainIds(s, source, s.store[source].fwdTargets)) && k < |q|
    ensures q[k] in s.endpoints && s.endpoints[q[k]] in s.store
    ensures var log := Published(s, source, cmd, PlainTargets(s, source), bytes);
            |log| == |q| + 1 && log[k] == Sent(ConnectionOf(s, q[k]), bytes)
  {
    NormalIsPart(s);
    var ids := PlainIds(s, source, s.store[source].fwdTargets);
    assert ids <= s.normal.Keys;
    hide Inv, PlainIds, Ascending;
    SetInOrder(s, s.normal, ids, bytes, q, k);
  }

  /** So are those of a typed publish that goes by the index. */
  lemma TypedAscending(s: State, source: Endpoint, m: MessageId, cmd: Byte, bytes: seq<Byte>, q: seq<EndpointId>, k: nat)
    requires Inv(s) && source in s.store && Ascending(q, TypedIds(s, source, m)) && k < |q|
    ensures q[k] in s.endpoints && s.endpoints[q[k]] in s.store
    ensures var log := Published(s, source, cmd, TypedTargets(s, source, m), bytes);
            |log| == |q| + 1 && log[k] == Sent(ConnectionOf(s, q[k]), bytes)
  {
    NormalIsPart(s);
    var ids := TypedIds(s, source, m);
    assert ids <= s.endpoints.Keys;
    hide Inv, TypedIds, Ascending;
    SetInOrder(s, s.endpoints, ids, bytes, q, k);
  }

  /** The copies to explicit targets are sent in the order of the targets found. */
  lemma ExplicitInOrder(s: State, source: Endpoint, m: MessageId, ids: seq<EndpointId>, cmd: Byte, bytes: seq<Byte>, k: nat)
    requires Inv(s) && source in s.store && k < |ExplicitTargets(s, source, m, ids)|
    ensures var targets := ExplicitTargets(s, source, m, ids);
            && targets[k] in s.store
            && |Published(s, source, cmd, targets, bytes)| == |targets| + 1
            && Published(s, source, cmd, targets, bytes)[k] == Sent(s.store[targets[k]].conn, bytes)
  {
    ExplicitRegistered(s, source, m, ids);
    hide Inv, AllRegistered;
    SentAt(s, ExplicitTargets(s, source, m, ids), bytes, k);
  }

  // ----- Kickout -----

  // The named ids that are registered, in the order in which they are named.
  ghost function Found(s: State, ids: seq<EndpointId>): seq<EndpointId> {
    if ids == [] then []
    else
      var last := ids[|ids| - 1];
      Found(s, ids[..|ids| - 1]) + if last in s.endpoints then [last] else []
  }

  lemma {:induction false} FoundCounts(s: State, ids: seq<EndpointId>, id: EndpointId)
    ensures Count(id, Found(s, ids)) == if id in s.endpoints then Count(id, ids) else 0
    decreases |ids|
  {
    if ids != [] {
      var front, last := ids[..|ids| - 1], ids[|ids| - 1];
      FoundCounts(s, front, id);
      CountAppend(id, Found(s, front), if last in s.endpoints then [last] else []);
    }
  }

  lemma {:induction false} FoundInOrder(s: State, p: seq<EndpointId>, q: seq<EndpointId>)
    ensures Found(s, p + q) == Found(s, p) + Found(s, q)
    decreases |q|
  {
    if q == [] {
      assert p + q == p;
    } else {
      var front := q[..|q| - 1];
      assert (p + q)[..|p + q| - 1] == p + front;
      FoundInOrder(s, p, front);
    }
  }

  lemma {:induction false} KickedPairs(s: State, ids: seq<EndpointId>, k: nat)
    requires WellFormed(s)
    ensures |SwitchService.KickedOut(s, ids)| == 2 * |Found(s, ids)|
    ensures k < |Found(s, ids)| ==>
              var id := Found(s, ids)[k];
              && id in s.endpoints && s.endpoints[id] in s.store
              && SwitchService.KickedOut(s, ids)[2 * k] == Result(ConnectionOf(s, id), 16, 0, None)
              && SwitchService.KickedOut(s, ids)[2 * k + 1] == Disconnecting(ConnectionOf(s, id))
    decreases |ids|
  {
    if ids != [] {
      var last := ids[|ids| - 1];
      KickedPairs(s, ids[..|ids| - 1], k);
      if last in s.endpoints {
        MemberStored(s, last);
      }
      hide WellFormed;
    }
  }

  lemma CountPair<T>(x: T, log: seq<T>, a: T, b: T)
    requires a != b
    ensures Count(x, log + [a, b]) == Count(x, log) + if x == a || x == b then 1 else 0
  {
    CountAppend(x, log, [a]);
    CountAppend(x, log + [a], [b]);
    assert log + [a] + [b] == log + [a, b];
  }

  lemma {:induction false} KickedCounts(s: State, ids: seq<EndpointId>, id: EndpointId)
    requires Inv(s) && id in s.endpoints
    ensures s.endpoints[id] in s.store
    ensures var log, c := SwitchService.KickedOut(s, ids), ConnectionOf(s, id);
            Count(Disconnecting(c), log) == Count(id, ids) && Count(Result(c, 16, 0, None), log) == Count(id, ids)
    decreases |ids|
  {
    MemberStored(s, id);
    if ids != [] {
      var front, last := ids[..|ids| - 1], ids[|ids| - 1];
      var log, c := SwitchService.KickedOut(s, front), ConnectionOf(s, id);
      KickedCounts(s, front, id);
      if last in s.endpoints {
        MemberStored(s, last);
        if last != id {
          RecipientsHaveOwnConnections(s, last, id);
        }
        hide Inv, WellFormed;
        var d := ConnectionOf(s, last);
        CountPair(Disconnecting(c), log, Result(d, 16, 0, None), Disconnecting(d));
        CountPair(Result(c, 16, 0, None), log, Result(d, 16, 0, None), Disconnecting(d));
      } else {
        hide Inv, WellFormed;
        assert log + [] == log;
      }
    }
  }

  /** Kicking out tells each registered endpoint as often as it is named and asks its connection to close right after; in
      the order of the names, and with nothing else in the log. */
  lemma KickedOutExactly(s: State, ids: seq<EndpointId>, id: EndpointId, k: nat)
    requires Inv(s)
    ensures var log := SwitchService.KickedOut(s, ids);
            && |log| == 2 * |Found(s, ids)|
            && (k < |Found(s, ids)| ==>
                  var named := Found(s, ids)[k];
                  && named in s.endpoints && s.endpoints[named] in s.store
                  && log[2 * k] == Result(ConnectionOf(s, named), 16, 0, None)
                  && log[2 * k + 1] == Disconnecting(ConnectionOf(s, named)))
            && (id in s.endpoints ==>
                  && s.endpoints[id] in s.store && Count(Disconnecting(ConnectionOf(s, id)), log) == Count(id, ids)
                  && Count(Result(ConnectionOf(s, id), 16, 0, None), log) == Count(id, ids))
  {
    KickedPairs(s, ids, k);
    if id in s.endpoints {
      KickedCounts(s, ids, id);
    }
    hide Inv, WellFormed;
  }
}
