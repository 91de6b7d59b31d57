/** Who receives a published message, and why the subscriber index may be used to find out. */
module Routing {
  import opened SwitchTypes
  import opened Entities
  import opened Registry
  import opened RegistryInvariant
  import opened Runs

  // ----- The routing decision -----

  // Whether endpoint `target` takes a message of type `m` (0: no type) from `source`, another endpoint.
  predicate Takes(target: Record, source: EndpointId, m: MessageId) {
    && source !in target.rejSources
    && (target.subsSources == {} || source in target.subsSources)
    && (m > 0 ==> m !in target.rejMessages && (target.subsMessages == {} || m in target.subsMessages))
  }

  ghost predicate ForwardingAllowed(s: State, source: Endpoint, target: Endpoint, m: MessageId)
    requires WellFormed(s) && source in s.store && target in s.store
  {
    IdOf(s, source) != IdOf(s, target) && Takes(s.store[target], IdOf(s, source), m)
  }

  // ----- Recipients -----

  // Plain publish: the normal endpoints that the forward set lets through (all, when it is empty or contains 0).
  ghost function PlainIds(s: State, source: Endpoint, fwd: set<EndpointId>): set<EndpointId>
    requires WellFormed(s) && source in s.store
  {
    set id | id in s.normal && ForwardingAllowed(s, source, s.normal[id], 0) && (fwd == {} || 0 in fwd || id in fwd)
  }

  // Typed publish without explicit targets, read off the subscriber index.
  ghost function TypedIds(s: State, source: Endpoint, m: MessageId): set<EndpointId>
    requires WellFormed(s) && source in s.store
  {
    set id | id in Subscribed(s.subscribers, m) && id in s.endpoints && ForwardingAllowed(s, source, s.endpoints[id], m)
  }

  // The same, by scanning every endpoint for the type in its whitelist.
  ghost function ScannedIds(s: State, source: Endpoint, m: MessageId): set<EndpointId>
    requires WellFormed(s) && source in s.store
  {
    set id | id in s.endpoints && m in s.store[s.endpoints[id]].subsMessages
             && ForwardingAllowed(s, source, s.endpoints[id], m)
  }

  // Explicit targets, one by one.
  ghost function ExplicitTargets(s: State, source: Endpoint, m: MessageId, ids: seq<EndpointId>): seq<Endpoint>
    requires WellFormed(s) && source in s.store
  {
    if ids == [] then []
    else
      var last := ids[|ids| - 1];
      ExplicitTargets(s, source, m, ids[..|ids| - 1])
      + if last in s.endpoints && ForwardingAllowed(s, source, s.endpoints[last], m) then [s.endpoints[last]] else []
  }

  // `q` lists `ids` in ascending order, each once.
  ghost predicate Ascending(q: seq<EndpointId>, ids: set<EndpointId>) {
    && (forall i, j | 0 <= i < j < |q| :: q[i] < q[j])
    && (forall i | 0 <= i < |q| :: q[i] in ids)
    && (forall id | id in ids :: id in q)
  }

  // ----- The order in which integer-keyed maps and sets are walked -----

  predicate IsLeast(x: EndpointId, ids: set<EndpointId>) {
    x in ids && forall y | y in ids :: x <= y
  }

  lemma LeastExists(ids: set<EndpointId>)
    requires ids != {}
    ensures exists x :: IsLeast(x, ids)
  {
    var x :| x in ids;
    var rest := ids - {x};
    if rest == {} {
      assert forall y | y in ids :: y == x by { assert ids == {x}; }
      assert IsLeast(x, ids);
    } else {
      LeastExists(rest);
      var y :| IsLeast(y, rest);
      assert forall z | z in ids :: z == x || z in rest;
      assert IsLeast(if x <= y then x else y, ids);
    }
  }

  function InOrder(ids: set<EndpointId>): (q: seq<EndpointId>)
    ensures Ascending(q, ids)
  {
    if ids == {} then []
    else
      LeastExists(ids);
      assert forall x, y | IsLeast(x, ids) && IsLeast(y, ids) :: x == y by { LeastsAgree(ids); }
      var least :| IsLeast(least, ids);
      AscendingFrom(least, InOrder(ids - {least}), ids);
      [least] + InOrder(ids - {least})
  }

  lemma LeastsAgree(ids: set<EndpointId>)
    ensures forall x, y | IsLeast(x, ids) && IsLeast(y, ids) :: x == y
  {
  }

  lemma AscendingFrom(least: EndpointId, q: seq<EndpointId>, ids: set<EndpointId>)
    requires IsLeast(least, ids) && Ascending(q, ids - {least})
    ensures Ascending([least] + q, ids)
  {
    var all := [least] + q;
    forall i, j | 0 <= i < j < |all| ensures all[i] < all[j] {
      assert all[j] == q[j - 1];
      if i > 0 {
        assert all[i] == q[i - 1];
      }
    }
    forall id | id in ids ensures id in all {
      assert id == least || id in q;
    }
  }

  // The ids of a walk that are chosen, and the endpoints registered under ids.
  ghost function Chosen(order: seq<EndpointId>, chosen: set<EndpointId>): seq<EndpointId> {
    if order == [] then []
    else
      var last := order[|order| - 1];
      Chosen(order[..|order| - 1], chosen) + if last in chosen then [last] else []
  }

  ghost function EndpointsOf(index: map<EndpointId, Endpoint>, ids: seq<EndpointId>): seq<Endpoint> {
    if ids == [] then []
    else
      var last := ids[|ids| - 1];
      EndpointsOf(index, ids[..|ids| - 1]) + if last in index then [index[last]] else []
  }

  lemma {:induction false} ChosenAscending(order: seq<EndpointId>, all: set<EndpointId>, chosen: set<EndpointId>)
    requires Ascending(order, all)
    ensures Ascending(Chosen(order, chosen), all * chosen)
    decreases |order|
  {
    if order == [] {
      assert all == {};
    } else {
      var k := |order| - 1;
      AscendingFront(order, all);
      ChosenAscending(order[..k], all - {order[k]}, chosen);
      LastIsGreatest(order, all);
      var before := Chosen(order[..k], chosen);
      hide Ascending;
      if order[k] in chosen {
        AscendingTo(before, order[k], (all - {order[k]}) * chosen);
        assert (all - {order[k]}) * chosen + {order[k]} == all * chosen;
      } else {
        assert (all - {order[k]}) * chosen == all * chosen;
      }
    }
  }

  lemma LastIsGreatest(order: seq<EndpointId>, all: set<EndpointId>)
    requires Ascending(order, all) && order != []
    ensures order[|order| - 1] in all && forall x | x in all && x != order[|order| - 1] :: x < order[|order| - 1]
  {
  }

  lemma AscendingTo(q: seq<EndpointId>, last: EndpointId, ids: set<EndpointId>)
    requires Ascending(q, ids) && forall x | x in ids :: x < last
    ensures Ascending(q + [last], ids + {last})
  {
    var all := q + [last];
    assert all[|q|] == last && last in all;
    forall id | id in q ensures id in all {
    }
    forall i, j | 0 <= i < j < |all| ensures all[i] < all[j] {
    }
  }

  /** Walking a map in key order and keeping the chosen keys is walking the chosen keys in order. */
  lemma ChosenInOrder(order: seq<EndpointId>, all: set<EndpointId>, chosen: set<EndpointId>)
    requires Ascending(order, all) && chosen <= all
    ensures Chosen(order, chosen) == InOrder(chosen)
  {
    ChosenAscending(order, all, chosen);
    assert all * chosen == chosen;
    AscendingUnique(Chosen(order, chosen), InOrder(chosen), chosen);
  }

  lemma WalkStart(index: map<EndpointId, Endpoint>, order: seq<EndpointId>, chosen: set<EndpointId>)
    ensures EndpointsOf(index, Chosen(order[..0], chosen)) == []
  {
  }

  // One more step of a walk.
  lemma WalkTaken(index: map<EndpointId, Endpoint>, order: seq<EndpointId>, chosen: set<EndpointId>, k: nat)
    requires k < |order| && order[k] in chosen && order[k] in index
    ensures EndpointsOf(index, Chosen(order[..k + 1], chosen))
            == EndpointsOf(index, Chosen(order[..k], chosen)) + [index[order[k]]]
  {
    assert order[..k + 1][..k] == order[..k] && order[..k + 1][k] == order[k];
    var before := Chosen(order[..k], chosen);
    assert Chosen(order[..k + 1], chosen) == before + [order[k]];
    hide Chosen;
    assert (before + [order[k]])[..|before|] == before;
  }

  lemma WalkPassed(index: map<EndpointId, Endpoint>, order: seq<EndpointId>, chosen: set<EndpointId>, k: nat)
    requires k < |order| && order[k] !in chosen
    ensures EndpointsOf(index, Chosen(order[..k + 1], chosen)) == EndpointsOf(index, Chosen(order[..k], chosen))
  {
    assert order[..k + 1][..k] == order[..k] && order[..k + 1][k] == order[k];
    assert Chosen(order[..k], chosen) + [] == Chosen(order[..k], chosen);
  }

  // ----- Plain publish -----

  /** Multicast to a forward set that covers every normal endpoint reaches whom broadcast reaches. */
  lemma WideMulticastIsBroadcast(s: State, source: Endpoint, fwd: set<EndpointId>)
    requires WellFormed(s) && source in s.store && s.normal.Keys <= fwd
    ensures PlainIds(s, source, fwd) == PlainIds(s, source, {})
  {
  }

  /** In an ascending listing every id stands once, so each recipient is sent one copy. */
  lemma {:induction false} AscendingUnique(p: seq<EndpointId>, q: seq<EndpointId>, ids: set<EndpointId>)
    requires Ascending(p, ids) && Ascending(q, ids)
    ensures p == q
    decreases |p|
  {
    AscendingLength(p, ids);
    AscendingLength(q, ids);
    if p != [] {
      var k := |p| - 1;
      var l := |q| - 1;
      assert p[k] in q && q[l] in p;
      assert p[k] == q[l];
      AscendingFront(p, ids);
      AscendingFront(q, ids);
      AscendingUnique(p[..k], q[..l], ids - {p[k]});
      assert p == p[..k] + [p[k]] && q == q[..l] + [q[l]];
    }
  }

  /** It has as many entries as there are ids: the reported total is the number of recipients. */
  lemma {:induction false} AscendingLength(q: seq<EndpointId>, ids: set<EndpointId>)
    requires Ascending(q, ids)
    ensures |q| == |ids|
    decreases |q|
  {
    if q == [] {
      assert ids == {};
    } else {
      AscendingFront(q, ids);
      AscendingLength(q[..|q| - 1], ids - {q[|q| - 1]});
    }
  }

  lemma AscendingFront(q: seq<EndpointId>, ids: set<EndpointId>)
    requires Ascending(q, ids) && q != []
    ensures Ascending(q[..|q| - 1], ids - {q[|q| - 1]})
  {
  }

  /** Different recipients are reached over different connections, each open and carrying the recipient's id. */
  lemma RecipientsHaveOwnConnections(s: State, i: EndpointId, j: EndpointId)
    requires Inv(s) && i in s.endpoints && j in s.endpoints && i != j
    ensures var c, d := s.store[s.endpoints[i]].conn, s.store[s.endpoints[j]].conn;
            c != d && c in s.open && d in s.open && s.ids[c] == i && s.ids[d] == j
  {
  }

  /** A sender is never among the recipients, whichever way they are found. */
  lemma NeverToSender(s: State, source: Endpoint, m: MessageId, ids: seq<EndpointId>)
    requires Inv(s) && Live(s.endpoints, s.store, s.ids, source)
    ensures IdOf(s, source) !in PlainIds(s, source, s.store[source].fwdTargets)
    ensures IdOf(s, source) !in TypedIds(s, source, m)
    ensures source !in ExplicitTargets(s, source, m, ids)
  {
    NeverExplicit(s, source, m, ids);
  }

  lemma {:induction false} NeverExplicit(s: State, source: Endpoint, m: MessageId, ids: seq<EndpointId>)
    requires WellFormed(s) && source in s.store
    ensures source !in ExplicitTargets(s, source, m, ids)
    decreases |ids|
  {
    if ids != [] {
      NeverExplicit(s, source, m, ids[..|ids| - 1]);
    }
  }

  // ----- Explicit targets -----

  // How often an id that is a key and allowed is named, counted on the ids; on the recipients, its endpoint.
  ghost function Count<T>(x: T, q: seq<T>): nat {
    if q == [] then 0 else Count(x, q[..|q| - 1]) + if q[|q| - 1] == x then 1 else 0
  }

  lemma {:induction false} CountAppend<T>(x: T, p: seq<T>, q: seq<T>)
    requires |q| <= 1
    ensures Count(x, p + q) == Count(x, p) + if q == [x] then 1 else 0
  {
    if q == [] {
      assert p + q == p;
    } else {
      assert (p + q)[..|p + q| - 1] == p;
    }
  }

  /** Every id is served as often as it is named, if it is a key and allowed, and otherwise never. */
  lemma {:induction false} ExplicitCounts(s: State, source: Endpoint, m: MessageId, ids: seq<EndpointId>, id: EndpointId)
    requires Inv(s) && source in s.store && id in s.endpoints
    ensures Count(s.endpoints[id], ExplicitTargets(s, source, m, ids))
            == if ForwardingAllowed(s, source, s.endpoints[id], m) then Count(id, ids) else 0
    decreases |ids|
  {
    if ids != [] {
      var front, last := ids[..|ids| - 1], ids[|ids| - 1];
      ExplicitCounts(s, source, m, front, id);
      if last in s.endpoints && last != id {
        RecipientsHaveOwnConnections(s, last, id);
      }
      var found := if last in s.endpoints && ForwardingAllowed(s, source, s.endpoints[last], m)
                   then [s.endpoints[last]] else [];
      hide Inv, WellFormed, ForwardingAllowed;
      CountAppend(s.endpoints[id], ExplicitTargets(s, source, m, front), found);
    }
  }

  /** The recipients come in the order in which their ids are named. */
  lemma {:induction false} ExplicitOrder(s: State, source: Endpoint, m: MessageId, p: seq<EndpointId>, q: seq<EndpointId>)
    requires WellFormed(s) && source in s.store
    ensures ExplicitTargets(s, source, m, p + q) == ExplicitTargets(s, source, m, p) + ExplicitTargets(s, source, m, q)
    decreases |q|
  {
    hide WellFormed, ForwardingAllowed;
    if q == [] {
      assert p + q == p;
    } else {
      var front := q[..|q| - 1];
      assert (p + q)[..|p + q| - 1] == p + front;
      ExplicitOrder(s, source, m, p, front);
    }
  }

  // ----- Typed publish -----

  /** The index finds every live allowed subscriber of the type, and otherwise at most endpoints without a whitelist. */
  lemma TypedFindsSubscribers(s: State, source: Endpoint, m: MessageId)
    requires Inv(s) && source in s.store && m > 0
    ensures ScannedIds(s, source, m) <= TypedIds(s, source, m)
    ensures forall id | id in TypedIds(s, source, m) - ScannedIds(s, source, m) ::
              id in s.endpoints && s.store[s.endpoints[id]].subsMessages == {}
  {
    hide RoleIndexed, ServicesSound, ServicesComplete, ConnectionsPlaced;
  }

  /** In every reachable state of a run without closes it finds exactly the allowed subscribers. */
  lemma TypedIsScan(r: Run, i: nat, source: Endpoint, m: MessageId)
    requires IsAllowedRun(r) && i < |r.states| && NoClose(r, i) && source in r.states[i].store && m > 0
    ensures Inv(r.states[i]) && TypedIds(r.states[i], source, m) == ScannedIds(r.states[i], source, m)
  {
    hide IsRun;
    ReachableInv(r, i);
    NoCloseSound(r, i);
    hide IsAllowedRun;
    TypedWithin(r.states[i], source, m);
    hide Inv;
  }

  lemma TypedWithin(s: State, source: Endpoint, m: MessageId)
    requires Inv(s) && source in s.store && SubscriptionsSound(s.subscribers, s.endpoints, s.store)
    ensures TypedIds(s, source, m) == ScannedIds(s, source, m)
  {
    hide RoleIndexed, ServicesSound, ServicesComplete, ConnectionsPlaced, KeyedByOwnId;
    assert forall id | id in s.endpoints ::
        id in Subscribed(s.subscribers, m) <==> m in s.store[s.endpoints[id]].subsMessages;
  }

  /** When the index is empty every live whitelist is, so the plain broadcast that replaces the typed one differs from
      it only at recipients that reject the type. */
  lemma FallbackDiffersAtRejections(s: State, source: Endpoint, m: MessageId, id: EndpointId)
    requires Inv(s) && source in s.store && m > 0 && s.subscribers == map[]
    requires id in PlainIds(s, source, s.store[source].fwdTargets)
    ensures s.store[s.normal[id]].subsMessages == {}
    ensures !ForwardingAllowed(s, source, s.normal[id], m) <==> m in s.store[s.normal[id]].rejMessages
  {
    EmptyIndexMeansNoWhitelist(s, id);
    hide Inv;
  }

  lemma EmptyIndexMeansNoWhitelist(s: State, id: EndpointId)
    requires Inv(s) && id in s.normal && s.subscribers == map[]
    ensures s.normal[id] in s.store && s.store[s.normal[id]].subsMessages == {}
  {
    var e := s.normal[id];
    assert id in s.endpoints && s.endpoints[id] == e;
    assert forall m | m in s.store[e].subsMessages :: id in Subscribed(s.subscribers, m);
    assert forall m :: Subscribed(s.subscribers, m) == {};
  }
}
