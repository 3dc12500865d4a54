/**
  A route's discovery time decides who answers a bare port. It stays with the route, comes back
  with a route that is reopened within the memory window, and is the present time otherwise.
  */
module ForwardingSeniority {
  import opened ForwardingRoutes

  /** A route that stays keeps its time. */
  lemma RouteKeepsTime(s: State, a: Action, now: Time, k: Key)
    requires Enabled(s, a) && k in s.routes && k in Step(s, a, now).routes && Step(s, a, now).routes[k].nodeID == s.routes[k].nodeID
    ensures Step(s, a, now).routes[k].discoveredAt == s.routes[k].discoveredAt
  {
    match a
    case Inventory(present) => InventoryKeepsTime(s, present, now, k);
    case Scan(id, ports) => ScanKeepsTime(s, id, ports, now, k);
    case _ =>
  }

  lemma InventoryKeepsTime(s: State, present: Listing, now: Time, k: Key)
    requires k in s.routes && k in Synced(s, present, now).routes
    ensures Synced(s, present, now).routes[k] == s.routes[k]
  {
  }

  lemma ScanKeepsTime(s: State, id: NodeId, ports: set<int>, now: Time, k: Key)
    requires id in s.nodes && k in s.routes && k in Scanned(s, id, ports, now).routes
    ensures Scanned(s, id, ports, now).routes[k] == s.routes[k].(lapsed := Scanned(s, id, ports, now).routes[k].lapsed)
  {
  }

  /** Nothing is restored any more once a route stands. */
  lemma NothingRestored(s: State, k: Key)
    requires Inv(s) && k in s.routes
    ensures s.restored == map[]
  {
    assert s.routes[k].nodeID in s.nodes;
  }

  lemma StaysEmpty(s: State, a: Action, now: Time)
    requires s.restored == map[] && Enabled(s, a)
    ensures Step(s, a, now).restored == map[]
  {
  }

  /** A route that goes is remembered with its time. */
  lemma RemovalRemembers(s: State, a: Action, now: Time, k: Key)
    requires Inv(s) && Enabled(s, a) && k in s.routes && k !in Step(s, a, now).routes
    ensures k in Step(s, a, now).discovered && Step(s, a, now).discovered[k] == Memory(s.routes[k].nodeID, s.routes[k].discoveredAt, now)
  {
    match a
    case Inventory(present) => InventoryRemembers(s, present, now, k);
    case Scan(id, ports) => ScanRemembers(s, id, ports, now, k);
    case _ => OthersKeep(s, a, now);
  }

  lemma ScanRemembers(s: State, id: NodeId, ports: set<int>, now: Time, k: Key)
    requires id in s.nodes && k in s.routes && k !in Scanned(s, id, ports, now).routes
    ensures k in Scanned(s, id, ports, now).discovered
    ensures Scanned(s, id, ports, now).discovered[k] == Memory(s.routes[k].nodeID, s.routes[k].discoveredAt, now)
  {
  }

  lemma InventoryRemembers(s: State, present: Listing, now: Time, k: Key)
    requires k in s.routes && k !in Synced(s, present, now).routes
    ensures k in Synced(s, present, now).discovered
    ensures Synced(s, present, now).discovered[k] == Memory(s.routes[k].nodeID, s.routes[k].discoveredAt, now)
  {
    var t := Settled(s, present);
    assert t.routes[k] == s.routes[k];
  }

  /** A memory stays for the window. */
  lemma MemoryStays(s: State, a: Action, now: Time, k: Key)
    requires s.restored == map[] && Enabled(s, a) && k !in s.routes && k !in Step(s, a, now).routes && k in s.discovered
    requires now - s.discovered[k].removedAt <= CLAIM_MEMORY
    ensures k in Step(s, a, now).discovered && Step(s, a, now).discovered[k] == s.discovered[k]
  {
    match a
    case Inventory(present) => InventoryKeepsMemory(s, present, now, k);
    case Scan(id, ports) =>
    case _ =>
  }

  lemma InventoryKeepsMemory(s: State, present: Listing, now: Time, k: Key)
    requires s.restored == map[] && k !in s.routes && k in s.discovered && now - s.discovered[k].removedAt <= CLAIM_MEMORY
    ensures k in Synced(s, present, now).discovered && Synced(s, present, now).discovered[k] == s.discovered[k]
  {
    var t := Settled(s, present);
    assert t.routes == s.routes;
  }

  /** A claim promoted by a read is not cleared by its review. */
  lemma PromotedStays(s: State, present: Listing, now: Time, k: Key)
    requires Known(s) && k !in s.routes && k in Settled(s, present).routes
    ensures Settled(s, present).routes[k].nodeID !in ClearedIds(Settled(s, present).nodes, present, now)
  {
    var t := Settled(s, present);
    var id := t.routes[k].nodeID;
    assert s.nodes == map[] && Awaited(s.restored, present, id);
    assert t.nodes[id] == Fresh(present[id]);
  }

  /** After an inventory read the remembered keys are those it removed and those removed within two minutes. */
  lemma RememberedIff(s: State, present: Listing, now: Time, k: Key)
    requires Inv(s) && !s.frozen
    ensures k in Synced(s, present, now).discovered <==>
            (k in s.routes && k !in Synced(s, present, now).routes) || (k in s.discovered && now <= s.discovered[k].removedAt + 120)
  {
    var t := Settled(s, present);
    if k in s.routes {
      assert t.routes[k] == s.routes[k];
    } else if k in t.routes {
      PromotedStays(s, present, now, k);
    }
  }

  // ----- while it is away -----

  /** A run in which no state has a route at the key, and no step is later than `until`. */
  ghost predicate Away(s: State, acts: seq<Timed>, end: State, k: Key, until: Time)
    decreases |acts|, 1
  {
    if acts == [] then end == s && k !in s.routes else exists mid :: AwayBy(s, acts, mid, end, k, until)
  }

  ghost predicate AwayBy(s: State, acts: seq<Timed>, mid: State, end: State, k: Key, until: Time)
    requires acts != []
    decreases |acts|, 0
  {
    var last := acts[|acts| - 1];
    && Away(s, acts[..|acts| - 1], mid, k, until) && Enabled(mid, last.act) && last.now <= until
    && end == Step(mid, last.act, last.now) && k !in end.routes
  }

  lemma {:induction false} RememberedAway(s: State, acts: seq<Timed>, end: State, k: Key, until: Time)
    requires Away(s, acts, end, k, until) && s.restored == map[] && k in s.discovered && until - s.discovered[k].removedAt <= CLAIM_MEMORY
    ensures end.restored == map[] && k !in end.routes && k in end.discovered && end.discovered[k] == s.discovered[k]
    decreases |acts|
  {
    if acts != [] {
      var n := |acts| - 1;
      var mid :| AwayBy(s, acts, mid, end, k, until);
      RememberedAway(s, acts[..n], mid, k, until);
      StaysEmpty(mid, acts[n].act, acts[n].now);
      MemoryStays(mid, acts[n].act, acts[n].now, k);
    }
  }

  /** The time of a route that a scan opens. */
  lemma ScanOpens(s: State, id: NodeId, ports: set<int>, now: Time, k: Key)
    requires id in s.nodes && s.restored == map[] && k !in s.routes && k in Scanned(s, id, ports, now).routes
    ensures var r := Scanned(s, id, ports, now).routes[k];
            && r.nodeID == id && !r.lapsed
            && (k.port == 1455 ==> r.discoveredAt == now)
            && ((k.port != 1455 && k in s.discovered && s.discovered[k].nodeID == id && s.discovered[k].removedAt != 0
                 && now - s.discovered[k].removedAt <= 120) ==> r.discoveredAt == s.discovered[k].discoveredAt)
            && (k !in s.discovered || s.discovered[k].nodeID != id || now - s.discovered[k].removedAt > 120 ==> r.discoveredAt == now)
  {
  }

  /**
    A route that went and is opened again for the same node within two minutes has its first
    discovery time again, whatever else happened meanwhile; only the Codex login port follows the
    newest listener.
    */
  lemma SeniorityReturns(s: State, gone: Action, at: Time, acts: seq<Timed>, end: State, ports: set<int>, now: Time, k: Key)
    requires Inv(s) && Enabled(s, gone) && at != 0 && k in s.routes
    requires Away(Step(s, gone, at), acts, end, k, now) && now - at <= 120
    requires var id := s.routes[k].nodeID; id in end.nodes && k in Scanned(end, id, ports, now).routes
    ensures var id := s.routes[k].nodeID;
            Scanned(end, id, ports, now).routes[k].discoveredAt == if k.port == 1455 then now else s.routes[k].discoveredAt
  {
    var t := Step(s, gone, at);
    assert k !in t.routes by {
      AwayStarts(t, acts, end, k, now);
    }
    NothingRestored(s, k);
    StaysEmpty(s, gone, at);
    RemovalRemembers(s, gone, at, k);
    RememberedAway(t, acts, end, k, now);
    ScanOpens(end, s.routes[k].nodeID, ports, now, k);
  }

  lemma {:induction false} AwayStarts(s: State, acts: seq<Timed>, end: State, k: Key, until: Time)
    requires Away(s, acts, end, k, until)
    ensures k !in s.routes
    decreases |acts|
  {
    if acts != [] {
      var mid :| AwayBy(s, acts, mid, end, k, until);
      AwayStarts(s, acts[..|acts| - 1], mid, k, until);
    }
  }
}
