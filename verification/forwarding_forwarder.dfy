/**
  The dynamic forwarder itself: maps edited in place, one key at a time and in no
  particular order, refining the one-shot table functions of ForwardingRoutes. Each
  loop is justified by the work that is left: what the table function would make of
  the current tables is what it would have made of the first ones.
  */
module DynamicForwarder {
  import opened ForwardingRoutes

  function PinDropped(pins: Pins, port: int, id: NodeId): (r: Pins) {
    if port in pins && pins[port] == id then pins - {port} else pins
  }

  function RouteRemoved(s: State, key: Key, now: Time): (r: State)
    requires key in s.routes
  {
    s.(routes := s.routes - {key},
       discovered := s.discovered[key := Remembered(s.routes[key], now)],
       pins := PinDropped(s.pins, key.port, s.routes[key].nodeID))
  }

  lemma PinsOutsideDropped(pins: Pins, port: int, id: NodeId)
    ensures PinsOutside(PinDropped(pins, port, id), {id}) == PinsOutside(pins, {id})
  {
  }

  lemma RemovalLeaves(s: State, key: Key, id: NodeId, now: Time)
    requires key in s.routes && s.routes[key].nodeID == id
    ensures Cleared(RouteRemoved(s, key, now), {id}, now) == Cleared(s, {id}, now)
  {
    PinsOutsideDropped(s.pins, key.port, id);
    assert RoutesOutside(s.routes - {key}, {id}) == RoutesOutside(s.routes, {id});
    assert s.discovered[key := Remembered(s.routes[key], now)] + MemoriesOf(s.routes - {key}, {id}, now)
        == s.discovered + MemoriesOf(s.routes, {id}, now);
  }

  lemma NoPinsInside(pins: Pins, ids: set<NodeId>)
    requires forall p :: p in pins ==> pins[p] !in ids
    ensures PinsOutside(pins, ids) == pins
  {
    assert forall p: int :: p in PinsOutside(pins, ids) <==> p in pins;
  }

  lemma NoClaimsInside(claims: Claims, ids: set<NodeId>)
    requires forall k :: k in claims ==> claims[k].nodeID !in ids
    ensures ClaimsOutside(claims, ids) == claims
  {
  }

  lemma NoRoutesInside(routes: Routes, ids: set<NodeId>, now: Time)
    requires forall k :: k in routes ==> routes[k].nodeID !in ids
    ensures RoutesOutside(routes, ids) == routes && MemoriesOf(routes, ids, now) == map[]
  {
  }

  lemma NoPinToDrop(pins: Pins, port: int, id: NodeId)
    requires PinsOutside(pins, {id}) == pins
    ensures PinDropped(pins, port, id) == pins
  {
    assert port in pins ==> port in PinsOutside(pins, {id});
  }

  lemma OutsideTwice(pins: Pins, restored: Claims, id: NodeId)
    ensures PinsOutside(PinsOutside(pins, {id}), {id}) == PinsOutside(pins, {id})
    ensures ClaimsOutside(ClaimsOutside(restored, {id}), {id}) == ClaimsOutside(restored, {id})
  {
    NoPinsInside(PinsOutside(pins, {id}), {id});
    NoClaimsInside(ClaimsOutside(restored, {id}), {id});
  }

  // ----- settling restored claims -----

  function Registered(nodes: NodeStates, id: NodeId, node: Node): (r: NodeStates) {
    if id in nodes then nodes else nodes[id := Fresh(node)]
  }

  function Installed(routes: Routes, k: Key, m: Memory): (r: Routes) {
    if k in routes then routes else routes[k := Claimed(m)]
  }

  /** What the inventory read does about one restored claim. */
  function SettledOne(s: State, present: Listing, k: Key): (r: State)
    requires k in s.restored
  {
    var claim := s.restored[k];
    match FateOf(k, claim, present)
    case Drop => s.(restored := s.restored - {k}, pins := PinDropped(s.pins, k.port, claim.nodeID))
    case Promote => s.(restored := s.restored - {k},
                       nodes := Registered(s.nodes, claim.nodeID, present[claim.nodeID]),
                       routes := Installed(s.routes, k, claim))
    case Keep => s.(nodes := Registered(s.nodes, claim.nodeID, present[claim.nodeID]))
  }

  lemma RestoredLeft(restored: Claims, present: Listing, k: Key)
    requires k in restored && FateOf(k, restored[k], present) != Keep
    ensures StillRestored(restored - {k}, present) == StillRestored(restored, present)
  {
  }

  lemma PinsLeft(pins: Pins, restored: Claims, present: Listing, k: Key)
    requires k in restored
    ensures var rest := if FateOf(k, restored[k], present) == Drop then PinDropped(pins, k.port, restored[k].nodeID) else pins;
            StillPinned(rest, restored - {k}, present) == StillPinned(pins, restored, present)
  {
    var rest := if FateOf(k, restored[k], present) == Drop then PinDropped(pins, k.port, restored[k].nodeID) else pins;
    forall p: int | p in rest
      ensures Unpinned(rest, restored - {k}, present, p) <==> Unpinned(pins, restored, present, p)
    {
      if Unpinned(pins, restored, present, p) {
        var j :| j in restored && j.port == p && restored[j].nodeID == pins[p] && FateOf(j, restored[j], present) == Drop;
        assert j in restored - {k};
      }
    }
    assert forall p: int :: p in pins && p !in rest ==> Unpinned(pins, restored, present, p);
  }

  lemma RoutesLeft(routes: Routes, restored: Claims, present: Listing, k: Key)
    requires k in restored && FateOf(k, restored[k], present) != Keep
    ensures var more := if FateOf(k, restored[k], present) == Promote then Installed(routes, k, restored[k]) else routes;
            Promoted(more, restored - {k}, present) == Promoted(routes, restored, present)
  {
  }

  lemma AwaitedWithout(restored: Claims, present: Listing, k: Key, id: NodeId)
    requires k in restored && (FateOf(k, restored[k], present) == Drop || restored[k].nodeID != id)
    ensures Awaited(restored - {k}, present, id) <==> Awaited(restored, present, id)
  {
    if Awaited(restored, present, id) {
      var j :| j in restored && restored[j].nodeID == id && FateOf(j, restored[j], present) != Drop;
      assert j in restored - {k};
    }
  }

  lemma NodesSame(nodes: NodeStates, more: NodeStates, restored: Claims, rest: Claims, present: Listing)
    requires forall i :: i in nodes ==> i in more && more[i] == nodes[i]
    requires forall i :: i in more && i !in nodes ==> i in present && Awaited(restored, present, i) && more[i] == Fresh(present[i])
    requires forall i :: i in present && i !in more ==> (Awaited(rest, present, i) <==> Awaited(restored, present, i))
    ensures NodesAwaited(more, rest, present) == NodesAwaited(nodes, restored, present)
  {
    var l, r := NodesAwaited(more, rest, present), NodesAwaited(nodes, restored, present);
    assert forall i :: i in l <==> i in r;
    assert forall i :: i in l ==> l[i] == r[i];
  }

  lemma NodesLeft(nodes: NodeStates, restored: Claims, present: Listing, k: Key, rest: Claims)
    requires k in restored && (rest == restored || rest == restored - {k})
    ensures var id := restored[k].nodeID;
            var more := if FateOf(k, restored[k], present) == Drop then nodes else Registered(nodes, id, present[id]);
            NodesAwaited(more, rest, present) == NodesAwaited(nodes, restored, present)
  {
    var id := restored[k].nodeID;
    var fate := FateOf(k, restored[k], present);
    var more := if fate == Drop then nodes else Registered(nodes, id, present[id]);
    forall i | i in present && i !in more ensures Awaited(rest, present, i) <==> Awaited(restored, present, i) {
      AwaitedWithout(restored, present, k, i);
    }
    assert fate != Drop ==> Awaited(restored, present, id);
    NodesSame(nodes, more, restored, rest, present);
  }

  lemma SettleLeaves(s: State, present: Listing, k: Key)
    requires k in s.restored
    ensures Settled(SettledOne(s, present, k), present) == Settled(s, present)
  {
    var fate := FateOf(k, s.restored[k], present);
    NodesLeft(s.nodes, s.restored, present, k, if fate == Keep then s.restored else s.restored - {k});
    if fate != Keep {
      RestoredLeft(s.restored, present, k);
      PinsLeft(s.pins, s.restored, present, k);
      RoutesLeft(s.routes, s.restored, present, k);
    }
  }

  /** All restored claims outside `keys` have been settled. */
  ghost predicate SettledBut(s: State, present: Listing, keys: set<Key>) {
    && (forall k :: k in keys ==> k in s.restored)
    && (forall k :: k in s.restored && k !in keys ==> FateOf(k, s.restored[k], present) == Keep && s.restored[k].nodeID in s.nodes)
  }

  lemma SettleAdvances(s: State, present: Listing, keys: set<Key>, k: Key)
    requires SettledBut(s, present, keys) && k in keys
    ensures SettledBut(SettledOne(s, present, k), present, keys - {k})
  {
    match FateOf(k, s.restored[k], present)
    case Keep => KeepAdvances(s, present, keys, k, SettledOne(s, present, k).nodes);
    case Drop => GoneAdvances(s, SettledOne(s, present, k), present, keys, k);
    case Promote => GoneAdvances(s, SettledOne(s, present, k), present, keys, k);
  }

  lemma KeepAdvances(s: State, present: Listing, keys: set<Key>, k: Key, nodes: NodeStates)
    requires SettledBut(s, present, keys) && k in keys && FateOf(k, s.restored[k], present) == Keep
    requires s.restored[k].nodeID in nodes && forall id :: id in s.nodes ==> id in nodes
    ensures SettledBut(s.(nodes := nodes), present, keys - {k})
  {
  }

  lemma GoneAdvances(s: State, r: State, present: Listing, keys: set<Key>, k: Key)
    requires SettledBut(s, present, keys) && k in keys && r.restored == s.restored - {k}
    requires forall id :: id in s.nodes ==> id in r.nodes
    ensures SettledBut(r, present, keys - {k})
  {
  }

  lemma NothingToSettle(s: State, present: Listing)
    requires SettledBut(s, present, {})
    ensures Settled(s, present) == s
  {
    assert StillRestored(s.restored, present) == s.restored;
    assert Promoted(s.routes, s.restored, present) == s.routes;
    assert forall p: int :: p in s.pins ==> !Unpinned(s.pins, s.restored, present, p);
    assert StillPinned(s.pins, s.restored, present) == s.pins;
    assert NodesAwaited(s.nodes, s.restored, present) == s.nodes;
  }

  // ----- reviewing known nodes -----

  lemma ClearRoutesTwice(routes: Routes, discovered: Claims, a: set<NodeId>, b: set<NodeId>, now: Time)
    ensures RoutesOutside(RoutesOutside(routes, a), b) == RoutesOutside(routes, a + b)
    ensures discovered + MemoriesOf(routes, a, now) + MemoriesOf(RoutesOutside(routes, a), b, now)
         == discovered + MemoriesOf(routes, a + b, now)
  {
  }

  lemma ClearTwice(s: State, a: set<NodeId>, b: set<NodeId>, now: Time)
    ensures Cleared(Cleared(s, a, now), b, now) == Cleared(s, a + b, now)
  {
    ClearRoutesTwice(s.routes, s.discovered, a, b, now);
    assert ClaimsOutside(ClaimsOutside(s.restored, a), b) == ClaimsOutside(s.restored, a + b);
    assert PinsOutside(PinsOutside(s.pins, a), b) == PinsOutside(s.pins, a + b) by {
      assert forall p: int :: p in PinsOutside(PinsOutside(s.pins, a), b) <==> p in PinsOutside(s.pins, a + b);
    }
  }

  lemma ClearAgain(s: State, id: NodeId, now: Time)
    ensures Cleared(Cleared(s, {id}, now), {id}, now) == Cleared(s, {id}, now)
  {
    ClearTwice(s, {id}, {id}, now);
    assert {id} + {id} == {id};
  }

  function NodeReviewed(nodes: NodeStates, present: Listing, now: Time, id: NodeId): (r: NodeStates)
    requires id in nodes
  {
    if Retires(nodes, present, now, id) then nodes - {id} else nodes[id := Observed(nodes[id], present[id], now)]
  }

  /** What the inventory read does about one known node. */
  function ReviewedOne(s: State, present: Listing, now: Time, id: NodeId): (r: State)
    requires id in s.nodes
  {
    (if id in ClearedIds(s.nodes, present, now) then Cleared(s, {id}, now) else s).(
      nodes := NodeReviewed(s.nodes, present, now, id))
  }

  lemma NodesReviewLeaves(nodes: NodeStates, present: Listing, now: Time, id: NodeId)
    requires id in nodes
    ensures ReviewedNodes(NodeReviewed(nodes, present, now, id), present, now) == ReviewedNodes(nodes, present, now)
  {
    var l := ReviewedNodes(NodeReviewed(nodes, present, now, id), present, now);
    assert forall i :: i in l <==> i in ReviewedNodes(nodes, present, now);
  }

  lemma IdsReviewLeaves(nodes: NodeStates, present: Listing, now: Time, id: NodeId)
    requires id in nodes
    ensures var ids := ClearedIds(nodes, present, now);
            var left := ClearedIds(NodeReviewed(nodes, present, now, id), present, now);
            if id in ids then {id} + left == ids else left == ids
  {
  }

  lemma ReviewLeaves(s: State, present: Listing, now: Time, id: NodeId)
    requires id in s.nodes
    ensures Reviewed(ReviewedOne(s, present, now, id), present, now) == Reviewed(s, present, now)
  {
    NodesReviewLeaves(s.nodes, present, now, id);
    IdsReviewLeaves(s.nodes, present, now, id);
    ClearTwice(s, {id}, ClearedIds(NodeReviewed(s.nodes, present, now, id), present, now), now);
  }

  ghost predicate NothingOf(s: State, ids: set<NodeId>) {
    && (forall p :: p in s.pins ==> s.pins[p] !in ids)
    && (forall k :: k in s.restored ==> s.restored[k].nodeID !in ids)
    && (forall k :: k in s.routes ==> s.routes[k].nodeID !in ids)
  }

  /** All known nodes outside `ids` have been reviewed. */
  ghost predicate ReviewedBut(s: State, present: Listing, now: Time, ids: set<NodeId>) {
    && (forall id :: id in ids ==> id in s.nodes)
    && (forall id :: id in s.nodes && id !in ids ==>
          !Retires(s.nodes, present, now, id) && s.nodes[id] == Observed(s.nodes[id], present[id], now))
    && NothingOf(s, ClearedIds(s.nodes, present, now) - ids)
  }

  lemma ReviewAdvances(s: State, present: Listing, now: Time, ids: set<NodeId>, id: NodeId)
    requires ReviewedBut(s, present, now, ids) && id in ids
    ensures ReviewedBut(ReviewedOne(s, present, now, id), present, now, ids - {id})
  {
    IdsReviewLeaves(s.nodes, present, now, id);
    var r := ReviewedOne(s, present, now, id);
    assert NothingOf(r, ClearedIds(s.nodes, present, now) - ids);
    assert id in ClearedIds(s.nodes, present, now) ==> NothingOf(r, {id});
  }

  lemma NothingToReview(s: State, present: Listing, now: Time)
    requires ReviewedBut(s, present, now, {})
    ensures Reviewed(s, present, now) == s
  {
    var ids := ClearedIds(s.nodes, present, now);
    assert ids - {} == ids;
    NoPinsInside(s.pins, ids);
    NoClaimsInside(s.restored, ids);
    NoRoutesInside(s.routes, ids, now);
    assert s.discovered + map[] == s.discovered;
    assert ReviewedNodes(s.nodes, present, now) == s.nodes;
  }

  // ----- joining, pruning -----

  lemma JoinLeaves(nodes: NodeStates, present: Listing, id: NodeId)
    requires id in present && present[id].running
    ensures JoinedNodes(Registered(nodes, id, present[id]), present) == JoinedNodes(nodes, present)
  {
  }

  lemma NothingToJoin(nodes: NodeStates, present: Listing)
    requires forall id :: id in present && present[id].running ==> id in nodes
    ensures JoinedNodes(nodes, present) == nodes
  {
  }

  // ----- a successful scan -----

  /** One listening port: its route becomes available, or is opened with its claim's discovery time. */
  function PortOpened(s: State, id: NodeId, k: Key, now: Time): (r: State) {
    if k in s.routes then s.(routes := s.routes[k := s.routes[k].(lapsed := false)])
    else s.(routes := s.routes[k := Route(id, DiscoveryTime(s.restored, s.discovered, id, k, now), false)],
            restored := s.restored - {k})
  }

  lemma ReopenRoutesLeft(routes: Routes, restored: Claims, discovered: Claims, id: NodeId, wanted: set<Key>, k: Key, now: Time)
    requires k in wanted && k in routes
    ensures var more := routes[k := routes[k].(lapsed := false)];
            && Surviving(more, id, wanted) == Surviving(routes, id, wanted)
            && Opened(more, restored, discovered, id, wanted, now) == Opened(routes, restored, discovered, id, wanted, now)
  {
  }

  lemma ReopenClaimsLeft(routes: Routes, restored: Claims, id: NodeId, wanted: set<Key>, k: Key, now: Time)
    requires k in wanted && k in routes
    ensures var more := routes[k := routes[k].(lapsed := false)];
            && ScannedClaims(more, restored, id, wanted) == ScannedClaims(routes, restored, id, wanted)
            && LostMemories(more, id, wanted, now) == LostMemories(routes, id, wanted, now)
  {
  }

  /** The discovery time of a key depends on that key's own claims only. */
  lemma TimeIsLocal(restored: Claims, discovered: Claims, id: NodeId, k: Key, j: Key, now: Time)
    requires j != k
    ensures DiscoveryTime(restored - {k}, discovered, id, j, now) == DiscoveryTime(restored, discovered, id, j, now)
  {
  }

  lemma OpenRoutesLeft(routes: Routes, restored: Claims, discovered: Claims, id: NodeId, wanted: set<Key>, k: Key, now: Time)
    requires k in wanted && k !in routes
    ensures var more := routes[k := Route(id, DiscoveryTime(restored, discovered, id, k, now), false)];
            Surviving(more, id, wanted) + Opened(more, restored - {k}, discovered, id, wanted, now) ==
            Surviving(routes, id, wanted) + Opened(routes, restored, discovered, id, wanted, now)
  {
    var added := Route(id, DiscoveryTime(restored, discovered, id, k, now), false);
    var more := routes[k := added];
    forall j | j in wanted && j !in more
      ensures DiscoveryTime(restored - {k}, discovered, id, j, now) == DiscoveryTime(restored, discovered, id, j, now)
    {
      TimeIsLocal(restored, discovered, id, k, j, now);
    }
    assert Surviving(more, id, wanted) == Surviving(routes, id, wanted)[k := added];
    assert Opened(more, restored - {k}, discovered, id, wanted, now) == Opened(routes, restored, discovered, id, wanted, now) - {k};
    assert Opened(routes, restored, discovered, id, wanted, now)[k] == added;
  }

  lemma OpenClaimsLeft(routes: Routes, restored: Claims, id: NodeId, wanted: set<Key>, k: Key, added: Route, now: Time)
    requires k in wanted && k !in routes
    ensures ScannedClaims(routes[k := added], restored - {k}, id, wanted) == ScannedClaims(routes, restored, id, wanted)
    ensures LostMemories(routes[k := added], id, wanted, now) == LostMemories(routes, id, wanted, now)
  {
  }

  /** Only claims and routes the scan did not see decide which pins go. */
  lemma PinsSame(pins: Pins, routes: Routes, restored: Claims, routes': Routes, restored': Claims, id: NodeId, wanted: set<Key>)
    requires forall k :: k in routes && k !in wanted ==> k in routes' && routes'[k] == routes[k]
    requires forall k :: k in routes' && k !in wanted ==> k in routes
    requires forall k :: k in restored && k !in wanted ==> k in restored' && restored'[k] == restored[k]
    requires forall k :: k in restored' && k !in wanted ==> k in restored
    ensures ScannedPins(pins, routes', restored', id, wanted) == ScannedPins(pins, routes, restored, id, wanted)
  {
    forall p: int ensures LosesPin(routes', restored', id, wanted, p) <==> LosesPin(routes, restored, id, wanted, p) {
    }
  }

  lemma OpenLeaves(s: State, id: NodeId, wanted: set<Key>, k: Key, now: Time)
    requires k in wanted
    ensures Confirmed(PortOpened(s, id, k, now), id, wanted, now) == Confirmed(s, id, wanted, now)
  {
    var r := PortOpened(s, id, k, now);
    if k in s.routes {
      ReopenRoutesLeft(s.routes, s.restored, s.discovered, id, wanted, k, now);
      ReopenClaimsLeft(s.routes, s.restored, id, wanted, k, now);
    } else {
      OpenRoutesLeft(s.routes, s.restored, s.discovered, id, wanted, k, now);
      OpenClaimsLeft(s.routes, s.restored, id, wanted, k, r.routes[k], now);
    }
    PinsSame(s.pins, s.routes, s.restored, r.routes, r.restored, id, wanted);
  }

  /** A pin whose claim goes is dropped now or at the end of the scan alike. */
  lemma PinDropLeaves(pins: Pins, routes: Routes, restored: Claims, k: Key, id: NodeId, wanted: set<Key>)
    requires k !in wanted
    requires (k in routes && routes[k].nodeID == id) || (k in restored && restored[k].nodeID == id)
    ensures ScannedPins(PinDropped(pins, k.port, id), routes, restored, id, wanted) == ScannedPins(pins, routes, restored, id, wanted)
  {
    assert LosesPin(routes, restored, id, wanted, k.port);
  }

  lemma ClaimDropLeaves(pins: Pins, routes: Routes, restored: Claims, k: Key, id: NodeId, wanted: set<Key>)
    requires k.port in pins ==> pins[k.port] != id
    ensures ScannedPins(pins, routes - {k}, restored, id, wanted) == ScannedPins(pins, routes, restored, id, wanted)
    ensures ScannedPins(pins, routes, restored - {k}, id, wanted) == ScannedPins(pins, routes, restored, id, wanted)
  {
    forall p: int | p != k.port
      ensures LosesPin(routes - {k}, restored, id, wanted, p) <==> LosesPin(routes, restored, id, wanted, p)
      ensures LosesPin(routes, restored - {k}, id, wanted, p) <==> LosesPin(routes, restored, id, wanted, p)
    {
      if LosesPin(routes, restored, id, wanted, p) {
        var j: Key :| j.port == p && j !in wanted &&
                      ((j in routes && routes[j].nodeID == id) || (j in restored && restored[j].nodeID == id));
        assert j != k;
      }
    }
  }

  lemma CloseRoutesLeft(routes: Routes, restored: Claims, discovered: Claims, id: NodeId, wanted: set<Key>, k: Key, m: Memory, now: Time)
    requires LosesRoute(routes, id, wanted, k) && m == Remembered(routes[k], now)
    ensures Surviving(routes - {k}, id, wanted) == Surviving(routes, id, wanted)
    ensures Opened(routes - {k}, restored, discovered[k := m], id, wanted, now) == Opened(routes, restored, discovered, id, wanted, now)
    ensures ScannedClaims(routes - {k}, restored, id, wanted) == ScannedClaims(routes, restored, id, wanted)
  {
  }

  lemma CloseMemoryLeft(routes: Routes, discovered: Claims, id: NodeId, wanted: set<Key>, k: Key, m: Memory, now: Time)
    requires LosesRoute(routes, id, wanted, k) && m == Remembered(routes[k], now)
    ensures discovered[k := m] + LostMemories(routes - {k}, id, wanted, now) == discovered + LostMemories(routes, id, wanted, now)
  {
  }

  lemma CloseLeaves(s: State, id: NodeId, wanted: set<Key>, k: Key, now: Time)
    requires LosesRoute(s.routes, id, wanted, k)
    ensures Confirmed(RouteRemoved(s, k, now), id, wanted, now) == Confirmed(s, id, wanted, now)
  {
    CloseRoutesLeft(s.routes, s.restored, s.discovered, id, wanted, k, Remembered(s.routes[k], now), now);
    CloseMemoryLeft(s.routes, s.discovered, id, wanted, k, Remembered(s.routes[k], now), now);
    PinDropLeaves(s.pins, s.routes, s.restored, k, id, wanted);
    ClaimDropLeaves(PinDropped(s.pins, k.port, id), s.routes, s.restored, k, id, wanted);
  }

  function ClaimForgotten(s: State, k: Key): (r: State)
    requires k in s.restored
  {
    s.(restored := s.restored - {k}, pins := PinDropped(s.pins, k.port, s.restored[k].nodeID))
  }

  lemma ForgetLeaves(s: State, id: NodeId, wanted: set<Key>, k: Key, now: Time)
    requires k in s.restored && s.restored[k].nodeID == id && k !in wanted
    ensures Confirmed(ClaimForgotten(s, k), id, wanted, now) == Confirmed(s, id, wanted, now)
  {
    var r := ClaimForgotten(s, k);
    PinDropLeaves(s.pins, s.routes, s.restored, k, id, wanted);
    ClaimDropLeaves(r.pins, s.routes, s.restored, k, id, wanted);
    assert ScannedClaims(s.routes, r.restored, id, wanted) == ScannedClaims(s.routes, s.restored, id, wanted);
    assert Opened(s.routes, r.restored, s.discovered, id, wanted, now) == Opened(s.routes, s.restored, s.discovered, id, wanted, now);
  }

  ghost predicate AllOpen(routes: Routes, keys: set<Key>) {
    forall k :: k in keys ==> k in routes && !routes[k].lapsed
  }

  function PortKeys(name: Name, ports: seq<int>): (r: set<Key>) {
    set p | p in ports :: Key(name, p)
  }

  lemma PortKeysSnoc(name: Name, ports: seq<int>, i: nat)
    requires i < |ports|
    ensures PortKeys(name, ports[..i + 1]) == PortKeys(name, ports[..i]) + {Key(name, ports[i])}
    ensures Key(name, ports[i]) in PortKeys(name, ports)
  {
    assert ports[..i + 1] == ports[..i] + [ports[i]];
  }

  lemma OpenAdvances(s: State, id: NodeId, keys: set<Key>, k: Key, now: Time)
    requires AllOpen(s.routes, keys)
    ensures AllOpen(PortOpened(s, id, k, now).routes, keys + {k})
  {
  }

  lemma NothingToConfirm(s: State, id: NodeId, wanted: set<Key>, now: Time)
    requires AllOpen(s.routes, wanted)
    requires forall k :: k in s.routes ==> !LosesRoute(s.routes, id, wanted, k)
    requires forall k :: k in s.restored && s.restored[k].nodeID == id ==> k in wanted
    ensures Confirmed(s, id, wanted, now) == s
  {
    NoRoutesToEdit(s, id, wanted, now);
    NoClaimsToEdit(s.routes, s.restored, id, wanted);
    NoPinsToLose(s.pins, s.routes, s.restored, id, wanted);
  }

  lemma NoRoutesToEdit(s: State, id: NodeId, wanted: set<Key>, now: Time)
    requires AllOpen(s.routes, wanted)
    requires forall k :: k in s.routes ==> !LosesRoute(s.routes, id, wanted, k)
    ensures Surviving(s.routes, id, wanted) + Opened(s.routes, s.restored, s.discovered, id, wanted, now) == s.routes
    ensures s.discovered + LostMemories(s.routes, id, wanted, now) == s.discovered
  {
    assert Surviving(s.routes, id, wanted) == s.routes;
    assert Opened(s.routes, s.restored, s.discovered, id, wanted, now) == map[];
    assert LostMemories(s.routes, id, wanted, now) == map[];
  }

  lemma NoClaimsToEdit(routes: Routes, restored: Claims, id: NodeId, wanted: set<Key>)
    requires AllOpen(routes, wanted)
    requires forall k :: k in restored && restored[k].nodeID == id ==> k in wanted
    ensures ScannedClaims(routes, restored, id, wanted) == restored
  {
  }

  lemma NoPinsToLose(pins: Pins, routes: Routes, restored: Claims, id: NodeId, wanted: set<Key>)
    requires forall k :: k in routes ==> !LosesRoute(routes, id, wanted, k)
    requires forall k :: k in restored && restored[k].nodeID == id ==> k in wanted
    ensures ScannedPins(pins, routes, restored, id, wanted) == pins
  {
    assert forall p: int :: !LosesPin(routes, restored, id, wanted, p);
  }

  lemma WantedKeys(node: Node, ports: seq<int>)
    ensures Wanted(node, set p | p in ports) == PortKeys(node.name, if node.ready then ports else [])
  {
  }

  lemma ScanWants(s: State, id: NodeId, given: Node, ports: seq<int>, now: Time)
    requires !s.frozen
    ensures var node := if id in s.nodes then s.nodes[id].node else given;
            var after := if id in s.nodes then s.nodes[id := Healthy(s.nodes[id])] else s.nodes;
            ScannedAs(s, id, given, (set p | p in ports), now) ==
            Confirmed(s.(nodes := after), id, PortKeys(node.name, if node.ready then ports else []), now)
  {
    WantedKeys(if id in s.nodes then s.nodes[id].node else given, ports);
  }

  class Forwarder {
    var routes: Routes
    var restored: Claims
    var discovered: Claims
    var pins: Pins
    var nodes: NodeStates
    var frozen: bool

    ghost function Value(): (s: State)
      reads this
    {
      State(routes, restored, discovered, pins, nodes, frozen)
    }

    method RemoveRoute(key: Key, now: Time)
      requires key in routes
      modifies this
      ensures Value() == RouteRemoved(old(Value()), key, now)
    {
      var route := routes[key];
      discovered := discovered[key := Memory(route.nodeID, route.discoveredAt, now)];
      if key.port in pins && pins[key.port] == route.nodeID {
        pins := pins - {key.port};
      }
      routes := routes - {key};
    }

    method DropPins(id: NodeId)
      modifies this`pins
      ensures pins == PinsOutside(old(pins), {id})
    {
      var entries := pins.Items;
      while entries != {}
        invariant entries <= old(pins).Items
        invariant PinsOutside(pins, {id}) == PinsOutside(old(pins), {id})
        invariant forall p :: p in pins ==> (p, pins[p]) in entries || pins[p] != id
      {
        var e :| e in entries;
        PinsOutsideDropped(pins, e.0, id);
        if e.1 == id { pins := pins - {e.0}; }
        entries := entries - {e};
      }
      NoPinsInside(pins, {id});
    }

    method DropRestored(id: NodeId)
      modifies this`restored
      ensures restored == ClaimsOutside(old(restored), {id})
    {
      var keys := restored.Keys;
      while keys != {}
        invariant ClaimsOutside(restored, {id}) == ClaimsOutside(old(restored), {id})
        invariant forall k :: k in restored ==> k in keys || restored[k].nodeID != id
      {
        var k :| k in keys;
        if k in restored && restored[k].nodeID == id {
          assert ClaimsOutside(restored - {k}, {id}) == ClaimsOutside(restored, {id});
          restored := restored - {k};
        }
        keys := keys - {k};
      }
      NoClaimsInside(restored, {id});
    }

    method DropRoutes(id: NodeId, now: Time)
      requires PinsOutside(pins, {id}) == pins && ClaimsOutside(restored, {id}) == restored
      modifies this
      ensures Value() == Cleared(old(Value()), {id}, now)
    {
      ghost var s := Value();
      var keys := routes.Keys;
      while keys != {}
        invariant Cleared(Value(), {id}, now) == Cleared(s, {id}, now)
        invariant pins == PinsOutside(pins, {id}) && restored == s.restored
        invariant forall k :: k in routes ==> k in keys || routes[k].nodeID != id
      {
        var k :| k in keys;
        if k in routes && routes[k].nodeID == id {
          RemovalLeaves(Value(), k, id, now);
          NoPinToDrop(pins, k.port, id);
          RemoveRoute(k, now);
        }
        keys := keys - {k};
      }
      NoRoutesInside(routes, {id}, now);
      assert discovered + map[] == discovered;
    }

    /** Whatever the order of its loops' keys, the node's routes, claims and pins go at once. */
    method RemoveNodeRoutes(id: NodeId, now: Time)
      modifies this
      ensures Value() == Cleared(old(Value()), {id}, now)
    {
      DropPins(id);
      DropRestored(id);
      OutsideTwice(old(pins), old(restored), id);
      DropRoutes(id, now);
    }

    method SettleClaim(k: Key, present: Listing)
      requires k in restored
      modifies this
      ensures Value() == SettledOne(old(Value()), present, k)
    {
      var claim := restored[k];
      if claim.nodeID !in present || k.node != present[claim.nodeID].name {
        restored := restored - {k};
        if k.port in pins && pins[k.port] == claim.nodeID {
          pins := pins - {k.port};
        }
        return;
      }
      var node := present[claim.nodeID];
      if claim.nodeID !in nodes {
        nodes := nodes[claim.nodeID := Fresh(node)];
      }
      if node.ready {
        if k !in routes {
          routes := routes[k := Route(claim.nodeID, claim.discoveredAt, true)];
        }
        restored := restored - {k};
      }
    }

    /** Every restored claim is settled, in whatever order the map yields them. */
    method SettleRestored(present: Listing)
      modifies this
      ensures Value() == Settled(old(Value()), present)
    {
      ghost var goal := Settled(Value(), present);
      var keys := restored.Keys;
      while keys != {}
        invariant SettledBut(Value(), present, keys) && Settled(Value(), present) == goal
      {
        var k :| k in keys;
        SettleLeaves(Value(), present, k);
        SettleAdvances(Value(), present, keys, k);
        SettleClaim(k, present);
        keys := keys - {k};
      }
      NothingToSettle(Value(), present);
    }

    method RetireNode(id: NodeId, now: Time)
      modifies this
      ensures Value() == Cleared(old(Value()), {id}, now).(nodes := old(nodes) - {id})
    {
      nodes := nodes - {id};
      RemoveNodeRoutes(id, now);
    }

    method ReviewNode(id: NodeId, present: Listing, now: Time)
      requires id in nodes
      modifies this
      ensures Value() == ReviewedOne(old(Value()), present, now, id)
    {
      if id !in present {
        RetireNode(id, now);
        return;
      }
      ClearAgain(Value(), id, now);
      var node := present[id];
      if !node.ready {
        RemoveNodeRoutes(id, now);
      }
      var state := nodes[id].(node := node);
      if node.running {
        nodes := nodes[id := state.(notRunningSince := 0)];
        return;
      }
      if state.notRunningSince == 0 {
        state := state.(notRunningSince := now);
      }
      if ConfirmedStopped(state, now) {
        RetireNode(id, now);
        return;
      }
      nodes := nodes[id := state];
    }

    /** Every known node is reviewed against the inventory, in whatever order. */
    method ReviewNodes(present: Listing, now: Time)
      modifies this
      ensures Value() == Reviewed(old(Value()), present, now)
    {
      ghost var goal := Reviewed(Value(), present, now);
      var ids := nodes.Keys;
      assert ClearedIds(nodes, present, now) - ids == {};
      while ids != {}
        invariant ReviewedBut(Value(), present, now, ids) && Reviewed(Value(), present, now) == goal
      {
        var id :| id in ids;
        ReviewLeaves(Value(), present, now, id);
        ReviewAdvances(Value(), present, now, ids, id);
        ReviewNode(id, present, now);
        ids := ids - {id};
      }
      NothingToReview(Value(), present, now);
    }

    /** A successful inventory read; during a handoff freeze it changes nothing. */
    method SyncMembership(present: Listing, now: Time)
      modifies this
      ensures Value() == Synced(old(Value()), present, now)
    {
      if frozen {
        return;
      }
      SettleRestored(present);
      ReviewNodes(present, now);
      JoinRunning(present);
      PruneDiscoveryMemory(now);
    }

    method JoinRunning(present: Listing)
      modifies this`nodes
      ensures Value() == Joined(old(Value()), present)
    {
      var ids := set id | id in present && present[id].running;
      while ids != {}
        invariant forall id :: id in ids ==> id in present && present[id].running
        invariant forall id :: id in present && present[id].running ==> id in ids || id in nodes
        invariant JoinedNodes(nodes, present) == JoinedNodes(old(nodes), present)
      {
        var id :| id in ids;
        JoinLeaves(nodes, present, id);
        if id !in nodes {
          nodes := nodes[id := Fresh(present[id])];
        }
        ids := ids - {id};
      }
      NothingToJoin(nodes, present);
    }

    method PruneDiscoveryMemory(now: Time)
      modifies this`discovered
      ensures Value() == Pruned(old(Value()), now)
    {
      var keys := discovered.Keys;
      while keys != {}
        invariant PrunedClaims(discovered, now) == PrunedClaims(old(discovered), now)
        invariant forall k :: k in keys ==> k in discovered
        invariant forall k :: k in discovered && k !in keys ==> !Stale(discovered[k], now)
      {
        var k :| k in keys;
        if discovered[k].removedAt != 0 && now - discovered[k].removedAt > CLAIM_MEMORY {
          assert PrunedClaims(discovered - {k}, now) == PrunedClaims(discovered, now);
          discovered := discovered - {k};
        }
        keys := keys - {k};
      }
      assert PrunedClaims(discovered, now) == discovered;
    }

    method OpenPort(id: NodeId, k: Key, now: Time)
      modifies this
      ensures Value() == PortOpened(old(Value()), id, k, now)
    {
      if k in routes {
        routes := routes[k := routes[k].(lapsed := false)];
        return;
      }
      var at := now;
      if k in restored && restored[k].nodeID == id {
        at := restored[k].discoveredAt;
      } else if k.port != CODEX_PORT && k in discovered && discovered[k].nodeID == id && discovered[k].removedAt != 0
                && now - discovered[k].removedAt <= CLAIM_MEMORY {
        at := discovered[k].discoveredAt;
      }
      restored := restored - {k};
      routes := routes[k := Route(id, at, false)];
    }

    method OpenPorts(id: NodeId, name: Name, ports: seq<int>, now: Time) returns (wanted: set<Key>)
      modifies this
      ensures nodes == old(nodes) && frozen == old(frozen)
      ensures wanted == PortKeys(name, ports) && AllOpen(routes, wanted)
      ensures Confirmed(Value(), id, wanted, now) == Confirmed(old(Value()), id, wanted, now)
    {
      ghost var all := PortKeys(name, ports);
      wanted := {};
      for i := 0 to |ports|
        invariant nodes == old(nodes) && frozen == old(frozen)
        invariant wanted == PortKeys(name, ports[..i]) && AllOpen(routes, wanted)
        invariant Confirmed(Value(), id, all, now) == Confirmed(old(Value()), id, all, now)
      {
        var k := Key(name, ports[i]);
        PortKeysSnoc(name, ports, i);
        OpenLeaves(Value(), id, all, k, now);
        OpenAdvances(Value(), id, wanted, k, now);
        OpenPort(id, k, now);
        wanted := wanted + {k};
      }
      assert ports[..|ports|] == ports;
    }

    method CloseRoutes(id: NodeId, wanted: set<Key>, now: Time)
      requires AllOpen(routes, wanted)
      modifies this
      ensures nodes == old(nodes) && frozen == old(frozen) && restored == old(restored)
      ensures AllOpen(routes, wanted) && forall k :: k in routes ==> !LosesRoute(routes, id, wanted, k)
      ensures Confirmed(Value(), id, wanted, now) == Confirmed(old(Value()), id, wanted, now)
    {
      var keys := routes.Keys;
      while keys != {}
        invariant nodes == old(nodes) && frozen == old(frozen) && restored == old(restored) && AllOpen(routes, wanted)
        invariant forall k :: k in routes && k !in keys ==> !LosesRoute(routes, id, wanted, k)
        invariant Confirmed(Value(), id, wanted, now) == Confirmed(old(Value()), id, wanted, now)
      {
        var k :| k in keys;
        if k in routes && routes[k].nodeID == id && k !in wanted {
          CloseLeaves(Value(), id, wanted, k, now);
          RemoveRoute(k, now);
        }
        keys := keys - {k};
      }
    }

    method ForgetClaims(id: NodeId, wanted: set<Key>, ghost now: Time)
      modifies this`restored, this`pins
      ensures forall k :: k in restored && restored[k].nodeID == id ==> k in wanted
      ensures Confirmed(Value(), id, wanted, now) == Confirmed(old(Value()), id, wanted, now)
    {
      var keys := restored.Keys;
      while keys != {}
        invariant forall k :: k in restored && k !in keys && restored[k].nodeID == id ==> k in wanted
        invariant Confirmed(Value(), id, wanted, now) == Confirmed(old(Value()), id, wanted, now)
      {
        var k :| k in keys;
        if k in restored && restored[k].nodeID == id && k !in wanted {
          ForgetLeaves(Value(), id, wanted, k, now);
          restored := restored - {k};
          if k.port in pins && pins[k.port] == id {
            pins := pins - {k.port};
          }
        }
        keys := keys - {k};
      }
    }

    method ConfirmPorts(id: NodeId, name: Name, ports: seq<int>, now: Time)
      modifies this
      ensures Value() == Confirmed(old(Value()), id, PortKeys(name, ports), now)
    {
      var wanted := OpenPorts(id, name, ports, now);
      CloseRoutes(id, wanted, now);
      ForgetClaims(id, wanted, now);
      NothingToConfirm(Value(), id, wanted, now);
    }

    /** A successful listener scan; during a handoff freeze it changes nothing. */
    method ApplyScanResult(id: NodeId, given: Node, ports: seq<int>, now: Time)
      modifies this
      ensures Value() == ScannedAs(old(Value()), id, given, (set p | p in ports), now)
    {
      if frozen {
        return;
      }
      var node := given;
      if id in nodes {
        node := nodes[id].node;
        nodes := nodes[id := Healthy(nodes[id])];
      }
      ConfirmPorts(id, node.name, if node.ready then ports else [], now);
      ScanWants(old(Value()), id, given, ports, now);
    }

    method LapseNodeRoutes(id: NodeId)
      modifies this`routes
      ensures Value() == LapsedRoutes(old(Value()), id)
    {
      var keys := routes.Keys;
      while keys != {}
        invariant routes.Keys == old(routes).Keys && keys <= routes.Keys
        invariant forall k :: k in routes ==>
                    routes[k] == if k !in keys && old(routes)[k].nodeID == id then old(routes)[k].(lapsed := true) else old(routes)[k]
      {
        var k :| k in keys;
        if routes[k].nodeID == id && !routes[k].lapsed {
          routes := routes[k := routes[k].(lapsed := true)];
        }
        keys := keys - {k};
      }
      assert routes == LapsedRoutes(old(Value()), id).routes;
    }

    /** A failed connect or scan: counted, and after the grace the node's routes are degraded. */
    method RecordNodeFailure(id: NodeId, now: Time)
      modifies this
      ensures Value() == Failed(old(Value()), id, now)
    {
      if id !in nodes {
        return;
      }
      var state := nodes[id];
      state := state.(failures := state.failures + 1);
      if state.firstFailureAt == 0 {
        state := state.(firstFailureAt := now);
      }
      if !state.routesLapsed && state.failures >= 2 && now - state.firstFailureAt >= ROUTE_GRACE {
        LapseNodeRoutes(id);
        state := state.(routesLapsed := true, peer := false);
      }
      nodes := nodes[id := state];
    }

    /** A pin is taken only for a node that has a route on a served port. */
    method PinBarePort(id: NodeId, port: int, serving: bool) returns (ok: bool)
      modifies this`pins
      ensures ok == (HasRoute(old(Value()), id, port) && serving)
      ensures Value() == Pinned(old(Value()), id, port, serving)
    {
      var keys, found := routes.Keys, false;
      while keys != {} && !found
        invariant keys <= routes.Keys
        invariant found ==> HasRoute(Value(), id, port)
        invariant forall k :: k in routes && k !in keys && !found ==> !(k.port == port && routes[k].nodeID == id)
      {
        var k :| k in keys;
        found := routes[k].nodeID == id && k.port == port;
        keys := keys - {k};
      }
      ok := found && serving;
      if ok {
        pins := pins[port := id];
      }
    }
  }
}
