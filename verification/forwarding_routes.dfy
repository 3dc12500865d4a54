/**
  The dynamic forwarder's tables: routes, claims restored from disk, remembered
  claims, pins and per-node discovery state, and the steps that edit them.

  A node ID is a number, 0 standing for every string that is not a UUID. A node
  name is its lower-cased sandbox name, represented by its rank in byte order, 0
  standing for every invalid name. Time is an integer clock, 0 the unset time.
  */
module ForwardingRoutes {

  type NodeId = nat
  type Name = nat
  type Time = nat

  const STOP_GRACE: nat := 15
  const ROUTE_GRACE: nat := 15
  const CLAIM_MEMORY: nat := 120
  const CODEX_PORT: int := 1455

  datatype Key = Key(node: Name, port: int)
  datatype Route = Route(nodeID: NodeId, discoveredAt: Time, lapsed: bool)
  datatype Memory = Memory(nodeID: NodeId, discoveredAt: Time, removedAt: Time)

  /** An inventory entry. `ready` is bootstrap completed and status running or stopped. */
  datatype Node = Node(name: Name, ready: bool, running: bool)

  datatype NodeState = NodeState(node: Node, peer: bool, notRunningSince: Time,
                                 failures: nat, firstFailureAt: Time, routesLapsed: bool)

  type Routes = map<Key, Route>
  type Claims = map<Key, Memory>
  type Pins = map<int, NodeId>
  type NodeStates = map<NodeId, NodeState>
  type Listing = map<NodeId, Node>

  datatype State = State(routes: Routes, restored: Claims, discovered: Claims,
                         pins: Pins, nodes: NodeStates, frozen: bool)

  function Fresh(node: Node): (s: NodeState) {
    NodeState(node, false, 0, 0, 0, false)
  }

  // ----- removing a node's routes -----

  function Remembered(r: Route, now: Time): (m: Memory) {
    Memory(r.nodeID, r.discoveredAt, now)
  }

  function RoutesOutside(routes: Routes, ids: set<NodeId>): (r: Routes) {
    map k | k in routes && routes[k].nodeID !in ids :: routes[k]
  }

  function ClaimsOutside(claims: Claims, ids: set<NodeId>): (r: Claims) {
    map k | k in claims && claims[k].nodeID !in ids :: claims[k]
  }

  function PinsOutside(pins: Pins, ids: set<NodeId>): (r: Pins) {
    map p | p in pins && pins[p] !in ids :: pins[p]
  }

  function MemoriesOf(routes: Routes, ids: set<NodeId>, now: Time): (r: Claims) {
    map k | k in routes && routes[k].nodeID in ids :: Remembered(routes[k], now)
  }

  /** Forget the routes, restored claims and pins of every node in `ids`; remember when. */
  function Cleared(s: State, ids: set<NodeId>, now: Time): (r: State) {
    s.(routes := RoutesOutside(s.routes, ids),
       restored := ClaimsOutside(s.restored, ids),
       pins := PinsOutside(s.pins, ids),
       discovered := s.discovered + MemoriesOf(s.routes, ids, now))
  }

  // ----- an inventory read -----

  datatype Fate = Drop | Promote | Keep

  /** What a successful inventory read means for one restored claim. */
  function FateOf(key: Key, m: Memory, present: Listing): (f: Fate) {
    if m.nodeID !in present || present[m.nodeID].name != key.node then Drop
    else if present[m.nodeID].ready then Promote else Keep
  }

  /** A dropped claim stands behind the pin. */
  ghost predicate Unpinned(pins: Pins, restored: Claims, present: Listing, port: int) {
    exists k :: k in restored && k.port == port && port in pins && restored[k].nodeID == pins[port]
                && FateOf(k, restored[k], present) == Drop
  }

  ghost predicate Awaited(restored: Claims, present: Listing, id: NodeId) {
    exists k :: k in restored && restored[k].nodeID == id && FateOf(k, restored[k], present) != Drop
  }

  function StillRestored(restored: Claims, present: Listing): (r: Claims) {
    map k | k in restored && FateOf(k, restored[k], present) == Keep :: restored[k]
  }

  ghost function StillPinned(pins: Pins, restored: Claims, present: Listing): (r: Pins) {
    map p | p in pins && !Unpinned(pins, restored, present, p) :: pins[p]
  }

  /** A claim of a ready node becomes a route that is unavailable until a scan confirms it. */
  function Claimed(m: Memory): (r: Route) {
    Route(m.nodeID, m.discoveredAt, true)
  }

  function Promoted(routes: Routes, restored: Claims, present: Listing): (r: Routes) {
    (map k | k in restored && FateOf(k, restored[k], present) == Promote :: Claimed(restored[k])) + routes
  }

  ghost function NodesAwaited(nodes: NodeStates, restored: Claims, present: Listing): (r: NodeStates) {
    (map id | id in present && Awaited(restored, present, id) :: Fresh(present[id])) + nodes
  }

  /** Restored claims are dropped, turned into lapsed routes, or kept waiting. */
  ghost function Settled(s: State, present: Listing): (r: State) {
    s.(restored := StillRestored(s.restored, present), pins := StillPinned(s.pins, s.restored, present),
       routes := Promoted(s.routes, s.restored, present), nodes := NodesAwaited(s.nodes, s.restored, present))
  }

  function Observed(state: NodeState, node: Node, now: Time): (r: NodeState) {
    state.(node := node,
           notRunningSince := if node.running then 0 else if state.notRunningSince == 0 then now else state.notRunningSince)
  }

  /** A not-running observation that lasted the whole grace, with the guest silent. */
  predicate ConfirmedStopped(state: NodeState, now: Time) {
    state.notRunningSince != 0 && now - state.notRunningSince >= STOP_GRACE && (!state.peer || state.routesLapsed)
  }

  predicate Retires(nodes: NodeStates, present: Listing, now: Time, id: NodeId)
    requires id in nodes
  {
    id !in present ||
    (!present[id].running && ConfirmedStopped(Observed(nodes[id], present[id], now), now))
  }

  function ClearedIds(nodes: NodeStates, present: Listing, now: Time): (ids: set<NodeId>) {
    set id | id in nodes && (Retires(nodes, present, now, id) || !present[id].ready)
  }

  function ReviewedNodes(nodes: NodeStates, present: Listing, now: Time): (r: NodeStates) {
    map id | id in nodes && !Retires(nodes, present, now, id) :: Observed(nodes[id], present[id], now)
  }

  function Reviewed(s: State, present: Listing, now: Time): (r: State) {
    Cleared(s, ClearedIds(s.nodes, present, now), now).(nodes := ReviewedNodes(s.nodes, present, now))
  }

  function JoinedNodes(nodes: NodeStates, present: Listing): (r: NodeStates) {
    (map id | id in present && present[id].running :: Fresh(present[id])) + nodes
  }

  function Joined(s: State, present: Listing): (r: State) {
    s.(nodes := JoinedNodes(s.nodes, present))
  }

  predicate Stale(m: Memory, now: Time) {
    m.removedAt != 0 && now - m.removedAt > CLAIM_MEMORY
  }

  function PrunedClaims(discovered: Claims, now: Time): (r: Claims) {
    map k | k in discovered && !Stale(discovered[k], now) :: discovered[k]
  }

  function Pruned(s: State, now: Time): (r: State) {
    s.(discovered := PrunedClaims(s.discovered, now))
  }

  ghost function Synced(s: State, present: Listing, now: Time): (r: State) {
    if s.frozen then s else Pruned(Joined(Reviewed(Settled(s, present), present, now), present), now)
  }

  // ----- a successful scan -----

  function Wanted(node: Node, ports: set<int>): (keys: set<Key>) {
    if node.ready then set p | p in ports :: Key(node.name, p) else {}
  }

  function DiscoveryTime(restored: Claims, discovered: Claims, id: NodeId, key: Key, now: Time): (t: Time) {
    if key in restored && restored[key].nodeID == id then restored[key].discoveredAt
    else if key.port == CODEX_PORT then now
    else if key in discovered && discovered[key].nodeID == id && discovered[key].removedAt != 0
            && now - discovered[key].removedAt <= CLAIM_MEMORY then discovered[key].discoveredAt
    else now
  }

  predicate LosesRoute(routes: Routes, id: NodeId, wanted: set<Key>, k: Key) {
    k in routes && routes[k].nodeID == id && k !in wanted
  }

  ghost predicate LosesPin(routes: Routes, restored: Claims, id: NodeId, wanted: set<Key>, port: int) {
    exists k: Key :: k.port == port && k !in wanted &&
                ((k in routes && routes[k].nodeID == id) || (k in restored && restored[k].nodeID == id))
  }

  function Healthy(state: NodeState): (r: NodeState) {
    state.(failures := 0, firstFailureAt := 0, routesLapsed := false)
  }

  /** Routes the scan saw are available again; this node's other routes go. */
  function Surviving(routes: Routes, id: NodeId, wanted: set<Key>): (r: Routes) {
    map k | k in routes && !LosesRoute(routes, id, wanted, k) ::
      if k in wanted then routes[k].(lapsed := false) else routes[k]
  }

  function Opened(routes: Routes, restored: Claims, discovered: Claims, id: NodeId, wanted: set<Key>, now: Time): (r: Routes) {
    map k | k in wanted && k !in routes :: Route(id, DiscoveryTime(restored, discovered, id, k, now), false)
  }

  function ScannedClaims(routes: Routes, restored: Claims, id: NodeId, wanted: set<Key>): (r: Claims) {
    map k | k in restored && (if k in wanted then k in routes else restored[k].nodeID != id) :: restored[k]
  }

  function LostMemories(routes: Routes, id: NodeId, wanted: set<Key>, now: Time): (r: Claims) {
    map k | k in routes && LosesRoute(routes, id, wanted, k) :: Remembered(routes[k], now)
  }

  ghost function ScannedPins(pins: Pins, routes: Routes, restored: Claims, id: NodeId, wanted: set<Key>): (r: Pins) {
    map p | p in pins && !(pins[p] == id && LosesPin(routes, restored, id, wanted, p)) :: pins[p]
  }

  ghost function Confirmed(s: State, id: NodeId, wanted: set<Key>, now: Time): (r: State) {
    s.(routes := Surviving(s.routes, id, wanted) + Opened(s.routes, s.restored, s.discovered, id, wanted, now),
       restored := ScannedClaims(s.routes, s.restored, id, wanted),
       discovered := s.discovered + LostMemories(s.routes, id, wanted, now),
       pins := ScannedPins(s.pins, s.routes, s.restored, id, wanted))
  }

  ghost function Scanned(s: State, id: NodeId, ports: set<int>, now: Time): (r: State)
    requires id in s.nodes
  {
    if s.frozen then s
    else Confirmed(s, id, Wanted(s.nodes[id].node, ports), now).(nodes := s.nodes[id := Healthy(s.nodes[id])])
  }

  /** A scan of a node missing from the table goes by what its caller knew of it. */
  ghost function ScannedAs(s: State, id: NodeId, given: Node, ports: set<int>, now: Time): (r: State) {
    if id in s.nodes then Scanned(s, id, ports, now)
    else if s.frozen then s
    else Confirmed(s, id, Wanted(given, ports), now)
  }

  // ----- failures, peers, pins -----

  predicate Lapses(state: NodeState, now: Time) {
    !state.routesLapsed && state.failures + 1 >= 2 &&
    now - (if state.firstFailureAt == 0 then now else state.firstFailureAt) >= ROUTE_GRACE
  }

  function LapsedRoutes(s: State, id: NodeId): (r: State) {
    s.(routes := map k | k in s.routes :: if s.routes[k].nodeID == id then s.routes[k].(lapsed := true) else s.routes[k])
  }

  /** A connect or scan failure degrades routes after the grace; it never removes one. */
  function Failed(s: State, id: NodeId, now: Time): (r: State) {
    if id !in s.nodes then s
    else
      var n := s.nodes[id];
      var counted := n.(failures := n.failures + 1, firstFailureAt := if n.firstFailureAt == 0 then now else n.firstFailureAt);
      if Lapses(n, now)
      then LapsedRoutes(s, id).(nodes := s.nodes[id := counted.(routesLapsed := true, peer := false)])
      else s.(nodes := s.nodes[id := counted])
  }

  function WithPeer(s: State, id: NodeId, peer: bool): (r: State) {
    if id !in s.nodes then s else s.(nodes := s.nodes[id := s.nodes[id].(peer := peer)])
  }

  ghost predicate HasRoute(s: State, id: NodeId, port: int) {
    exists k :: k in s.routes && k.port == port && s.routes[k].nodeID == id
  }

  ghost function Pinned(s: State, id: NodeId, port: int, serving: bool): (r: State) {
    if HasRoute(s, id, port) && serving then s.(pins := s.pins[port := id]) else s
  }

  // ----- the invariant -----

  predicate ValidKey(k: Key) {
    k.node != 0 && 1024 <= k.port <= 65535
  }

  predicate ValidMemory(m: Memory) {
    m.nodeID != 0 && m.discoveredAt != 0
  }

  /** Some route or restored claim stands behind the pin. */
  ghost predicate PinBacked(s: State, port: int, id: NodeId) {
    || (exists k :: k in s.routes && k.port == port && s.routes[k].nodeID == id)
    || (exists k :: k in s.restored && k.port == port && s.restored[k].nodeID == id)
  }

  ghost predicate PinsBacked(s: State) {
    forall p :: p in s.pins ==> PinBacked(s, p, s.pins[p])
  }

  ghost predicate Disjoint(s: State) {
    forall k :: k in s.routes ==> k !in s.restored
  }

  ghost predicate Tables(s: State) {
    && (forall k :: k in s.routes ==> ValidKey(k) && s.routes[k].nodeID != 0 && s.routes[k].discoveredAt != 0)
    && (forall k :: k in s.restored ==> ValidKey(k) && ValidMemory(s.restored[k]) && s.restored[k].removedAt == 0)
    && (forall k :: k in s.discovered ==> ValidKey(k) && ValidMemory(s.discovered[k]) && s.discovered[k].removedAt != 0)
  }

  ghost predicate DistinctNames(nodes: NodeStates) {
    forall a, b :: a in nodes && b in nodes && nodes[a].node.name == nodes[b].node.name ==> a == b
  }

  /** Restored claims only exist before the first inventory read, when no node is known yet. */
  ghost predicate Known(s: State) {
    && (forall id :: id in s.nodes ==> id != 0 && s.nodes[id].node.name != 0)
    && DistinctNames(s.nodes)
    && (s.nodes == map[] || s.restored == map[])
    && (forall k :: k in s.routes ==> s.routes[k].nodeID in s.nodes)
  }

  ghost predicate Inv(s: State) {
    PinsBacked(s) && Disjoint(s) && Tables(s) && Known(s)
  }

  /** An inventory of usable nodes with distinct lower-cased sandbox names. */
  ghost predicate WellNamed(present: Listing) {
    && (forall id :: id in present ==> id != 0 && present[id].name != 0)
    && (forall a, b :: a in present && b in present && present[a].name == present[b].name ==> a == b)
  }

  // ----- each step keeps it -----

  lemma ClearedKeeps(s: State, ids: set<NodeId>, now: Time)
    requires PinsBacked(s) && Disjoint(s) && Tables(s) && now != 0
    ensures var r := Cleared(s, ids, now); PinsBacked(r) && Disjoint(r) && Tables(r)
  {
    var r := Cleared(s, ids, now);
    forall p | p in r.pins ensures PinBacked(r, p, r.pins[p]) {
      BackedClears(s, ids, now, p);
    }
  }

  lemma BackedClears(s: State, ids: set<NodeId>, now: Time, p: int)
    requires p in s.pins && s.pins[p] !in ids && PinBacked(s, p, s.pins[p])
    ensures PinBacked(Cleared(s, ids, now), p, s.pins[p])
  {
    var r, id := Cleared(s, ids, now), s.pins[p];
    if k :| k in s.routes && k.port == p && s.routes[k].nodeID == id {
      assert k in r.routes;
    } else {
      var k :| k in s.restored && k.port == p && s.restored[k].nodeID == id;
      assert k in r.restored;
    }
  }

  lemma SettledBacked(s: State, present: Listing, p: int)
    requires Disjoint(s) && p in s.pins && PinBacked(s, p, s.pins[p]) && !Unpinned(s.pins, s.restored, present, p)
    ensures PinBacked(Settled(s, present), p, s.pins[p])
  {
    var r, id := Settled(s, present), s.pins[p];
    if k :| k in s.routes && k.port == p && s.routes[k].nodeID == id {
      assert k in r.routes && r.routes[k] == s.routes[k];
    } else {
      var k :| k in s.restored && k.port == p && s.restored[k].nodeID == id;
      assert FateOf(k, s.restored[k], present) != Drop;
      if FateOf(k, s.restored[k], present) == Promote {
        assert k in r.routes && r.routes[k].nodeID == id;
      } else {
        assert k in r.restored;
      }
    }
  }

  lemma SettledPins(s: State, present: Listing)
    requires PinsBacked(s) && Disjoint(s)
    ensures PinsBacked(Settled(s, present))
  {
    var r := Settled(s, present);
    forall p | p in r.pins ensures PinBacked(r, p, r.pins[p]) {
      SettledBacked(s, present, p);
    }
  }

  lemma SettledTables(s: State, present: Listing)
    requires Disjoint(s) && Tables(s)
    ensures Disjoint(Settled(s, present)) && Tables(Settled(s, present))
  {
  }

  /** Whatever restored claims an inventory read leaves waiting, its review clears them. */
  lemma NothingWaits(s: State, present: Listing, now: Time)
    ensures Reviewed(Settled(s, present), present, now).restored == map[]
  {
    var t := Settled(s, present);
    forall k | k in t.restored ensures t.restored[k].nodeID in ClearedIds(t.nodes, present, now) {
      var id := t.restored[k].nodeID;
      assert Awaited(s.restored, present, id);
      assert id in t.nodes;
    }
  }

  lemma ReviewedKeeps(s: State, present: Listing, now: Time)
    requires PinsBacked(s) && Disjoint(s) && Tables(s) && now != 0
    ensures var r := Reviewed(s, present, now); PinsBacked(r) && Disjoint(r) && Tables(r)
  {
    var ids := ClearedIds(s.nodes, present, now);
    ClearedKeeps(s, ids, now);
    SamePins(Cleared(s, ids, now), Reviewed(s, present, now));
  }

  lemma SamePins(a: State, b: State)
    requires PinsBacked(a) && a.routes == b.routes && a.restored == b.restored && a.pins == b.pins
    ensures PinsBacked(b)
  {
    forall p | p in b.pins ensures PinBacked(b, p, b.pins[p]) {
      assert PinBacked(a, p, a.pins[p]);
    }
  }

  lemma RoutesHaveNodes(s: State, present: Listing, now: Time, k: Key)
    requires Known(s) && k in Reviewed(Settled(s, present), present, now).routes
    ensures Reviewed(Settled(s, present), present, now).routes[k].nodeID in Reviewed(Settled(s, present), present, now).nodes
  {
    var t := Settled(s, present);
    var id := t.routes[k].nodeID;
    if k !in s.routes {
      assert Awaited(s.restored, present, id);
    }
    assert id in t.nodes;
    assert id !in ClearedIds(t.nodes, present, now);
  }

  lemma SyncedKnown(s: State, present: Listing, now: Time)
    requires Known(s) && WellNamed(present)
    ensures Known(Pruned(Joined(Reviewed(Settled(s, present), present, now), present), now))
  {
    var t := Settled(s, present);
    var u := Reviewed(t, present, now);
    var v := Joined(u, present);
    NothingWaits(s, present, now);
    NamesFromInventory(t, present, now);
    forall k | k in v.routes ensures v.routes[k].nodeID in v.nodes {
      RoutesHaveNodes(s, present, now, k);
    }
  }

  lemma NamesFromInventory(t: State, present: Listing, now: Time)
    requires WellNamed(present)
    ensures var nodes := Joined(Reviewed(t, present, now), present).nodes;
            DistinctNames(nodes) && forall id :: id in nodes ==> id != 0 && nodes[id].node.name != 0
  {
    var nodes := Joined(Reviewed(t, present, now), present).nodes;
    assert forall id :: id in nodes ==> id in present && nodes[id].node == present[id];
  }

  lemma SyncKeeps(s: State, present: Listing, now: Time)
    requires Inv(s) && WellNamed(present) && now != 0
    ensures Inv(Synced(s, present, now))
  {
    if !s.frozen {
      SettledPins(s, present);
      SettledTables(s, present);
      var t := Settled(s, present);
      ReviewedKeeps(t, present, now);
      SyncedKnown(s, present, now);
      SamePins(Reviewed(t, present, now), Synced(s, present, now));
    }
  }

  lemma ScannedPin(s: State, id: NodeId, ports: set<int>, now: Time, p: int)
    requires id in s.nodes && Known(s) && PinsBacked(s) && !s.frozen
    requires p in Scanned(s, id, ports, now).pins
    ensures PinBacked(Scanned(s, id, ports, now), p, s.pins[p])
  {
    var r := Scanned(s, id, ports, now);
    assert PinBacked(s, p, s.pins[p]);
    var k :| k in s.routes && k.port == p && s.routes[k].nodeID == s.pins[p];
    assert k in r.routes && r.routes[k].nodeID == s.pins[p];
  }

  lemma DiscoveryTimeSet(s: State, id: NodeId, k: Key, now: Time)
    requires Tables(s) && now != 0
    ensures DiscoveryTime(s.restored, s.discovered, id, k, now) != 0
  {
  }

  lemma ScannedTables(s: State, id: NodeId, ports: set<int>, now: Time)
    requires id in s.nodes && Known(s) && Tables(s) && now != 0 && !s.frozen
    requires forall p :: p in ports ==> 1024 <= p <= 65535
    ensures Tables(Scanned(s, id, ports, now)) && Disjoint(Scanned(s, id, ports, now))
  {
    var r := Scanned(s, id, ports, now);
    assert s.restored == map[];
    forall k | k in r.routes ensures ValidKey(k) && r.routes[k].nodeID != 0 && r.routes[k].discoveredAt != 0 {
      if k !in s.routes {
        assert k in Wanted(s.nodes[id].node, ports);
        DiscoveryTimeSet(s, id, k, now);
      }
    }
    forall k | k in r.discovered
      ensures ValidKey(k) && ValidMemory(r.discovered[k]) && r.discovered[k].removedAt != 0
    {
    }
  }

  /** Changing a node's discovery state, but not the node, changes nothing that is known. */
  lemma NodeUpdateKnown(s: State, id: NodeId, n: NodeState)
    requires Known(s) && id in s.nodes && n.node == s.nodes[id].node
    ensures Known(s.(nodes := s.nodes[id := n]))
  {
  }

  lemma ScannedKnown(s: State, id: NodeId, ports: set<int>, now: Time)
    requires id in s.nodes && Known(s) && !s.frozen
    ensures Known(Scanned(s, id, ports, now))
  {
    assert s.restored == map[];
    NodeUpdateKnown(s, id, Healthy(s.nodes[id]));
  }

  lemma ScanKeeps(s: State, id: NodeId, ports: set<int>, now: Time)
    requires Inv(s) && id in s.nodes && now != 0
    requires forall p :: p in ports ==> 1024 <= p <= 65535
    ensures Inv(Scanned(s, id, ports, now))
  {
    if !s.frozen {
      ScannedTables(s, id, ports, now);
      ScannedKnown(s, id, ports, now);
      forall p | p in Scanned(s, id, ports, now).pins
        ensures PinBacked(Scanned(s, id, ports, now), p, Scanned(s, id, ports, now).pins[p])
      {
        ScannedPin(s, id, ports, now, p);
      }
    }
  }

  lemma LapseKeeps(s: State, id: NodeId)
    requires Inv(s)
    ensures Inv(LapsedRoutes(s, id))
  {
    var r := LapsedRoutes(s, id);
    forall p | p in r.pins ensures PinBacked(r, p, r.pins[p]) {
      assert PinBacked(s, p, s.pins[p]);
      if k :| k in s.routes && k.port == p && s.routes[k].nodeID == s.pins[p] {
        assert k in r.routes && r.routes[k].nodeID == s.pins[p];
      }
    }
  }

  lemma NodeUpdateKeeps(s: State, id: NodeId, n: NodeState)
    requires Inv(s) && id in s.nodes && n.node == s.nodes[id].node
    ensures Inv(s.(nodes := s.nodes[id := n]))
  {
    NodeUpdateKnown(s, id, n);
    SamePins(s, s.(nodes := s.nodes[id := n]));
  }

  lemma FailKeeps(s: State, id: NodeId, now: Time)
    requires Inv(s)
    ensures Inv(Failed(s, id, now))
  {
    if id in s.nodes {
      var r := Failed(s, id, now);
      LapseKeeps(s, id);
      if Lapses(s.nodes[id], now) {
        NodeUpdateKeeps(LapsedRoutes(s, id), id, r.nodes[id]);
      } else {
        NodeUpdateKeeps(s, id, r.nodes[id]);
      }
    }
  }

  lemma PeerKeeps(s: State, id: NodeId, peer: bool)
    requires Inv(s)
    ensures Inv(WithPeer(s, id, peer))
  {
    if id in s.nodes {
      NodeUpdateKeeps(s, id, s.nodes[id].(peer := peer));
    }
  }

  lemma PinKeeps(s: State, id: NodeId, port: int, serving: bool)
    requires Inv(s)
    ensures Inv(Pinned(s, id, port, serving))
  {
    var r := Pinned(s, id, port, serving);
    forall p | p in r.pins ensures PinBacked(r, p, r.pins[p]) {
      if p in s.pins {
        assert PinBacked(s, p, s.pins[p]);
      }
    }
  }

  // ----- runs -----

  datatype Action =
    | Inventory(present: Listing)
    | InventoryFailed
    | Scan(id: NodeId, ports: set<int>)
    | Fail(id: NodeId)
    | Peer(id: NodeId, up: bool)
    | Pin(id: NodeId, port: int, serving: bool)
    | Freeze
    | Thaw

  /** What a run may do: only known nodes are scanned, and guests report unprivileged ports. */
  ghost predicate Enabled(s: State, a: Action) {
    match a
    case Inventory(present) => WellNamed(present)
    case Scan(id, ports) => id in s.nodes && forall p :: p in ports ==> 1024 <= p <= 65535
    case _ => true
  }

  ghost function Step(s: State, a: Action, now: Time): (r: State)
    requires Enabled(s, a)
  {
    match a
    case Inventory(present) => Synced(s, present, now)
    case InventoryFailed => s
    case Scan(id, ports) => Scanned(s, id, ports, now)
    case Fail(id) => Failed(s, id, now)
    case Peer(id, up) => WithPeer(s, id, up)
    case Pin(id, port, serving) => Pinned(s, id, port, serving)
    case Freeze => s.(frozen := true)
    case Thaw => s.(frozen := false)
  }

  lemma StepKeeps(s: State, a: Action, now: Time)
    requires Inv(s) && Enabled(s, a) && now != 0
    ensures Inv(Step(s, a, now))
  {
    match a
    case Inventory(present) => SyncKeeps(s, present, now);
    case InventoryFailed =>
    case Scan(id, ports) => ScanKeeps(s, id, ports, now);
    case Fail(id) => FailKeeps(s, id, now);
    case Peer(id, up) => PeerKeeps(s, id, up);
    case Pin(id, port, serving) => PinKeeps(s, id, port, serving);
    case Freeze => SamePins(s, Step(s, a, now));
    case Thaw => SamePins(s, Step(s, a, now));
  }

  datatype Timed = Timed(act: Action, now: Time)

  ghost predicate Runs(s: State, acts: seq<Timed>, end: State)
    decreases |acts|, 1
  {
    if acts == [] then end == s else exists mid :: Arrives(s, acts, mid, end)
  }

  /** The last action leads from `mid` to `end`. */
  ghost predicate Arrives(s: State, acts: seq<Timed>, mid: State, end: State)
    requires acts != []
    decreases |acts|, 0
  {
    var last := acts[|acts| - 1];
    Runs(s, acts[..|acts| - 1], mid) && Enabled(mid, last.act) && last.now != 0 && end == Step(mid, last.act, last.now)
  }

  /** Every reachable state keeps its pins backed, its tables disjoint and its claims well formed. */
  lemma {:induction false} RunKeeps(s: State, acts: seq<Timed>, end: State)
    requires Inv(s) && Runs(s, acts, end)
    ensures Inv(end)
    decreases |acts|
  {
    if acts != [] {
      var n := |acts| - 1;
      var mid :| Arrives(s, acts, mid, end);
      RunKeeps(s, acts[..n], mid);
      StepKeeps(mid, acts[n].act, acts[n].now);
    }
  }

  // ----- how a route can disappear -----

  /** The evidence on which a route may be removed, in terms of what was read, not of what was done. */
  ghost predicate Evidence(s: State, a: Action, now: Time, k: Key)
    requires k in s.routes
  {
    var id := s.routes[k].nodeID;
    !s.frozen &&
    match a
    case Inventory(present) =>
      || id !in present
      || !present[id].ready
      || (!present[id].running && id in s.nodes && (!s.nodes[id].peer || s.nodes[id].routesLapsed) &&
          s.nodes[id].notRunningSince != 0 && now - s.nodes[id].notRunningSince >= 15)
    case Scan(scanned, ports) =>
      && scanned == id && id in s.nodes
      && !(s.nodes[id].node.ready && k.port in ports && k.node == s.nodes[id].node.name)
    case _ => false
  }

  lemma ScanLosesIff(s: State, id: NodeId, ports: set<int>, now: Time, k: Key)
    requires id in s.nodes && k in s.routes && !s.frozen
    ensures k !in Scanned(s, id, ports, now).routes <==>
            s.routes[k].nodeID == id && !(s.nodes[id].node.ready && k.port in ports && k.node == s.nodes[id].node.name)
  {
    var wanted := Wanted(s.nodes[id].node, ports);
    assert k in wanted <==> s.nodes[id].node.ready && k.port in ports && k.node == s.nodes[id].node.name by {
      assert k == Key(k.node, k.port);
    }
  }

  lemma SyncLosesIff(s: State, present: Listing, now: Time, k: Key)
    requires Known(s) && k in s.routes && !s.frozen
    ensures k !in Synced(s, present, now).routes <==>
            s.routes[k].nodeID in ClearedIds(NodesAwaited(s.nodes, s.restored, present), present, now)
  {
    var t := Settled(s, present);
    assert t.routes[k] == s.routes[k];
  }

  lemma ClearedIff(nodes: NodeStates, restored: Claims, present: Listing, now: Time, id: NodeId)
    requires id in nodes
    ensures id in ClearedIds(NodesAwaited(nodes, restored, present), present, now) <==>
            || id !in present
            || !present[id].ready
            || (!present[id].running && ConfirmedStopped(Observed(nodes[id], present[id], now), now))
  {
    assert NodesAwaited(nodes, restored, present)[id] == nodes[id];
  }

  /**
    A route leaves the table exactly on that evidence: a successful inventory read
    without its node, with the node not ready, or with a stop confirmed over the whole
    grace; or a successful scan of its node without its port (or under another name).
    Connect, scan, keepalive and inventory failures leave the key set alone.
    */
  lemma RouteLostIff(s: State, a: Action, now: Time, k: Key)
    requires Inv(s) && Enabled(s, a) && k in s.routes
    ensures k !in Step(s, a, now).routes <==> Evidence(s, a, now, k)
  {
    var id := s.routes[k].nodeID;
    match a
    case Inventory(present) =>
      if !s.frozen {
        SyncLosesIff(s, present, now, k);
        ClearedIff(s.nodes, s.restored, present, now, id);
      }
    case Scan(scanned, ports) =>
      if !s.frozen {
        ScanLosesIff(s, scanned, ports, now, k);
      }
    case _ => OthersKeep(s, a, now);
  }

  lemma OthersKeep(s: State, a: Action, now: Time)
    requires Enabled(s, a) && !a.Inventory? && !a.Scan?
    ensures Step(s, a, now).routes.Keys == s.routes.Keys
  {
  }

  // ----- a confirmed stop was observed for the whole grace -----

  /** Whether the table is frozen for a handoff after these actions. */
  function FrozenAfter(acts: seq<Timed>): (b: bool) {
    acts != [] &&
    var last := acts[|acts| - 1].act;
    last == Freeze || (last != Thaw && FrozenAfter(acts[..|acts| - 1]))
  }

  /** From index `j` on, every inventory read that counted showed the node present and not running. */
  ghost predicate SeenStopped(acts: seq<Timed>, id: NodeId, j: nat) {
    forall i :: j <= i < |acts| && acts[i].act.Inventory? && !FrozenAfter(acts[..i]) ==>
                  id in acts[i].act.present && !acts[i].act.present[id].running
  }

  ghost predicate StopWitness(acts: seq<Timed>, id: NodeId, since: Time) {
    exists j :: 0 <= j < |acts| && acts[j].act.Inventory? && !FrozenAfter(acts[..j]) && acts[j].now == since && SeenStopped(acts, id, j)
  }

  lemma SeenStoppedSnoc(acts: seq<Timed>, id: NodeId, j: nat)
    requires acts != [] && j < |acts| && SeenStopped(acts[..|acts| - 1], id, j)
    requires var last := acts[|acts| - 1];
             last.act.Inventory? && !FrozenAfter(acts[..|acts| - 1]) ==>
               id in last.act.present && !last.act.present[id].running
    ensures SeenStopped(acts, id, j)
  {
    var n := |acts| - 1;
    forall i | j <= i < |acts| && acts[i].act.Inventory? && !FrozenAfter(acts[..i])
      ensures id in acts[i].act.present && !acts[i].act.present[id].running
    {
      if i < n {
        assert acts[..n][i] == acts[i] && acts[..n][..i] == acts[..i];
      }
    }
  }

  lemma WitnessSnoc(acts: seq<Timed>, id: NodeId, since: Time)
    requires acts != [] && StopWitness(acts[..|acts| - 1], id, since)
    requires var last := acts[|acts| - 1];
             last.act.Inventory? && !FrozenAfter(acts[..|acts| - 1]) ==>
               id in last.act.present && !last.act.present[id].running
    ensures StopWitness(acts, id, since)
  {
    var n := |acts| - 1;
    var j :| 0 <= j < n && acts[..n][j].act.Inventory? && !FrozenAfter(acts[..n][..j]) && acts[..n][j].now == since && SeenStopped(acts[..n], id, j);
    SeenStoppedSnoc(acts, id, j);
    assert acts[j] == acts[..n][j] && acts[..n][..j] == acts[..j];
  }

  /** What one step can do to a node's not-running mark. */
  lemma MarkMoves(s: State, a: Action, now: Time, id: NodeId)
    requires Enabled(s, a) && id in Step(s, a, now).nodes
    ensures var since := Step(s, a, now).nodes[id].notRunningSince;
            if a.Inventory? && !s.frozen
            then id in a.present &&
                 (since != 0 ==> !a.present[id].running &&
                                 (since == now || (id in s.nodes && s.nodes[id].notRunningSince == since)))
            else id in s.nodes && s.nodes[id].notRunningSince == since
  {
  }

  ghost predicate MarkWitnessed(acts: seq<Timed>, id: NodeId, nodes: NodeStates) {
    id in nodes && nodes[id].notRunningSince != 0 ==> StopWitness(acts, id, nodes[id].notRunningSince)
  }

  lemma FrozenMoves(s: State, a: Action, now: Time)
    requires Enabled(s, a)
    ensures Step(s, a, now).frozen == (a == Freeze || (a != Thaw && s.frozen))
  {
  }

  /** A mark that was already set stays witnessed, and a mark set now is witnessed by this read. */
  lemma MarkStaysWitnessed(acts: seq<Timed>, id: NodeId, since: Time, carried: bool)
    requires acts != [] && (carried ==> StopWitness(acts[..|acts| - 1], id, since))
    requires var last := acts[|acts| - 1];
             if last.act.Inventory? && !FrozenAfter(acts[..|acts| - 1])
             then id in last.act.present && !last.act.present[id].running && (last.now == since || carried)
             else carried
    ensures StopWitness(acts, id, since)
  {
    var n := |acts| - 1;
    if carried {
      WitnessSnoc(acts, id, since);
    } else {
      SeenStoppedSnoc(acts, id, n);
    }
  }

  lemma MarkStep(acts: seq<Timed>, mid: State, nodes: NodeStates, id: NodeId)
    requires acts != [] && Enabled(mid, acts[|acts| - 1].act)
    requires nodes == Step(mid, acts[|acts| - 1].act, acts[|acts| - 1].now).nodes
    requires mid.frozen == FrozenAfter(acts[..|acts| - 1])
    requires MarkWitnessed(acts[..|acts| - 1], id, mid.nodes)
    ensures MarkWitnessed(acts, id, nodes)
  {
    if id in nodes && nodes[id].notRunningSince != 0 {
      var since := nodes[id].notRunningSince;
      MarkMoves(mid, acts[|acts| - 1].act, acts[|acts| - 1].now, id);
      MarkStaysWitnessed(acts, id, since, id in mid.nodes && mid.nodes[id].notRunningSince == since);
    }
  }

  /** A node's not-running mark is the time of a read since which no read that counted contradicted it. */
  lemma {:induction false} MarkIsWitnessed(s: State, acts: seq<Timed>, end: State, id: NodeId)
    requires s.nodes == map[] && !s.frozen && Runs(s, acts, end)
    ensures end.frozen == FrozenAfter(acts)
    ensures MarkWitnessed(acts, id, end.nodes)
    decreases |acts|
  {
    if acts != [] {
      var n := |acts| - 1;
      var mid :| Arrives(s, acts, mid, end);
      MarkIsWitnessed(s, acts[..n], mid, id);
      FrozenMoves(mid, acts[n].act, acts[n].now);
      MarkStep(acts, mid, end.nodes, id);
    }
  }

  /**
    In every run, a ready node whose routes are removed as stopped had been read as
    not running, without a contradicting read, since at least the whole grace ago.
    */
  lemma StoppedForTheGrace(s: State, acts: seq<Timed>, end: State, present: Listing, now: Time, k: Key)
    requires Inv(s) && s.nodes == map[] && !s.frozen && Runs(s, acts, end)
    requires WellNamed(present) && k in end.routes && k !in Synced(end, present, now).routes
    requires end.routes[k].nodeID in present && present[end.routes[k].nodeID].ready
    ensures var id := end.routes[k].nodeID;
            exists since :: now - since >= 15 && StopWitness(acts, id, since) && !present[id].running
  {
    RunKeeps(s, acts, end);
    RouteLostIff(end, Inventory(present), now, k);
    MarkIsWitnessed(s, acts, end, end.routes[k].nodeID);
  }
}
