/**
  Which node answers a bare port: the pinned one, else the best route on the port by
  discovery time and then by name, with degraded routes only as a last resort.
  */
module ForwardingClaimant {
  import opened ForwardingRoutes

  predicate Eligible(routes: Routes, port: int, includeLapsed: bool, k: Key) {
    k in routes && k.port == port && (includeLapsed || !routes[k].lapsed)
  }

  /** `a` is preferred to `b`: the older discovery (the newer one if `newest`), then the lesser name. */
  predicate Better(routes: Routes, newest: bool, a: Key, b: Key)
    requires a in routes && b in routes
  {
    var s, t := routes[a].discoveredAt, routes[b].discoveredAt;
    (if newest then s > t else s < t) || (s == t && a.node < b.node)
  }

  /** `k` is preferred to every other candidate on the port. */
  ghost predicate Wins(routes: Routes, port: int, newest: bool, includeLapsed: bool, k: Key) {
    && Eligible(routes, port, includeLapsed, k)
    && forall j :: Eligible(routes, port, includeLapsed, j) && j != k ==> Better(routes, newest, k, j)
  }

  ghost predicate AnyEligible(routes: Routes, port: int, includeLapsed: bool) {
    exists k :: Eligible(routes, port, includeLapsed, k)
  }

  lemma WinnerIsUnique(routes: Routes, port: int, newest: bool, includeLapsed: bool, a: Key, b: Key)
    requires Wins(routes, port, newest, includeLapsed, a) && Wins(routes, port, newest, includeLapsed, b)
    ensures a == b
  {
  }

  /** A scan over the routes in any order: 0 without a candidate, otherwise the winner's name. */
  method SelectClaimant(routes: Routes, port: int, newest: bool, includeLapsed: bool) returns (name: Name)
    ensures if AnyEligible(routes, port, includeLapsed)
            then Wins(routes, port, newest, includeLapsed, Key(name, port))
            else name == 0
  {
    var keys := routes.Keys;
    var found, selected := false, Key(0, port);
    while keys != {}
      invariant keys <= routes.Keys
      invariant found ==> Eligible(routes, port, includeLapsed, selected) && selected !in keys
      invariant forall k :: Eligible(routes, port, includeLapsed, k) && k !in keys && k != selected ==>
                  found && Better(routes, newest, selected, k)
      invariant !found ==> selected == Key(0, port) && forall k :: Eligible(routes, port, includeLapsed, k) ==> k in keys
    {
      var k :| k in keys;
      keys := keys - {k};
      if k.port == port && (includeLapsed || !routes[k].lapsed) {
        if !found || Better(routes, newest, k, selected) {
          found, selected := true, k;
        }
      }
    }
    name := selected.node;
    assert selected == Key(name, port);
  }

  ghost predicate PinnedRoute(s: State, port: int, k: Key) {
    port in s.pins && k in s.routes && k.port == port && s.routes[k].nodeID == s.pins[port]
  }

  /** The name that should answer the bare port. */
  ghost predicate Preferred(s: State, port: int, name: Name) {
    var newest := port == CODEX_PORT;
    if exists k :: PinnedRoute(s, port, k) then PinnedRoute(s, port, Key(name, port))
    else if AnyEligible(s.routes, port, false) then Wins(s.routes, port, newest, false, Key(name, port))
    else if AnyEligible(s.routes, port, true) then Wins(s.routes, port, newest, true, Key(name, port))
    else name == 0
  }

  method PreferredClaimant(s: State, port: int) returns (name: Name)
    requires Tables(s)
    ensures Preferred(s, port, name)
  {
    if port in s.pins {
      var keys := s.routes.Keys;
      while keys != {}
        invariant forall k :: k in s.routes && k !in keys ==> !PinnedRoute(s, port, k)
        invariant keys <= s.routes.Keys
      {
        var k :| k in keys;
        if k.port == port && s.routes[k].nodeID == s.pins[port] {
          assert PinnedRoute(s, port, k) && k == Key(k.node, port);
          return k.node;
        }
        keys := keys - {k};
      }
    }
    var newest := port == CODEX_PORT;
    name := SelectClaimant(s.routes, port, newest, false);
    if name == 0 {
      assert !AnyEligible(s.routes, port, false);
      name := SelectClaimant(s.routes, port, newest, true);
    }
  }

  // ----- in one order -----

  /** Of two routes on a port, one that answers comes first, then the elder (on the Codex login port the younger), then the lesser name. */
  predicate Before(routes: Routes, a: Key, b: Key)
    requires a in routes && b in routes
  {
    var r, q := routes[a], routes[b];
    || (!r.lapsed && q.lapsed)
    || (r.lapsed == q.lapsed && (if a.port == 1455 then r.discoveredAt > q.discoveredAt else r.discoveredAt < q.discoveredAt))
    || (r.lapsed == q.lapsed && r.discoveredAt == q.discoveredAt && a.node < b.node)
  }

  ghost predicate FirstOn(routes: Routes, port: int, k: Key) {
    k in routes && k.port == port && forall j :: j in routes && j.port == port && j != k ==> Before(routes, k, j)
  }

  /** The two selections, of what answers and of what does not, find the first route in one order. */
  lemma WinnerIsFirst(routes: Routes, port: int, k: Key)
    requires k.port == port
    ensures FirstOn(routes, port, k) <==>
            Wins(routes, port, port == CODEX_PORT, !AnyEligible(routes, port, false), k)
  {
    var lapsed := !AnyEligible(routes, port, false);
    if FirstOn(routes, port, k) {
      if j :| Eligible(routes, port, false, j) {
        assert Eligible(routes, port, false, k);
      }
      forall j | Eligible(routes, port, lapsed, j) && j != k ensures Better(routes, port == CODEX_PORT, k, j) {
        assert Before(routes, k, j);
        assert lapsed ==> !Eligible(routes, port, false, k) && !Eligible(routes, port, false, j);
      }
    }
    if Wins(routes, port, port == CODEX_PORT, lapsed, k) {
      forall j | j in routes && j.port == port && j != k ensures Before(routes, k, j) {
        assert !routes[j].lapsed ==> Eligible(routes, port, false, j);
        if Eligible(routes, port, lapsed, j) {
          assert lapsed ==> !Eligible(routes, port, false, k);
          assert Better(routes, port == CODEX_PORT, k, j);
        }
      }
    }
  }

  /**
    For every table: a bare port goes to the node it is pinned to, if that has a route on it;
    else to the first route in that order; and to nobody exactly when there is no route.
    */
  lemma PreferredIff(s: State, port: int, name: Name)
    requires Tables(s)
    ensures Preferred(s, port, name) <==>
            if port in s.pins && exists j :: j in s.routes && j.port == port && s.routes[j].nodeID == s.pins[port]
            then Key(name, port) in s.routes && s.routes[Key(name, port)].nodeID == s.pins[port]
            else if exists j :: j in s.routes && j.port == port then FirstOn(s.routes, port, Key(name, port))
            else name == 0
  {
    WinnerIsFirst(s.routes, port, Key(name, port));
    if port in s.pins && exists j :: j in s.routes && j.port == port && s.routes[j].nodeID == s.pins[port] {
      var j :| j in s.routes && j.port == port && s.routes[j].nodeID == s.pins[port];
      assert PinnedRoute(s, port, j);
    } else if exists j :: j in s.routes && j.port == port {
      var j :| j in s.routes && j.port == port;
      assert Eligible(s.routes, port, true, j);
    }
  }

  // ----- one name per node -----

  /** All routes of a node stand under one name. */
  ghost predicate OneName(routes: Routes) {
    forall j, k :: j in routes && k in routes && routes[j].nodeID == routes[k].nodeID ==> j.node == k.node
  }

  lemma SyncOneName(s: State, present: Listing, now: Time)
    requires Known(s) && OneName(s.routes)
    ensures OneName(Synced(s, present, now).routes)
  {
    PromotedOneName(s, present);
  }

  lemma OtherOneName(s: State, a: Action, now: Time)
    requires Enabled(s, a) && !a.Inventory? && !a.Scan? && OneName(s.routes)
    ensures OneName(Step(s, a, now).routes)
  {
  }

  lemma StepKeepsOneName(s: State, a: Action, now: Time)
    requires Inv(s) && Enabled(s, a) && OneName(s.routes)
    ensures OneName(Step(s, a, now).routes)
  {
    match a
    case Inventory(present) => SyncOneName(s, present, now);
    case Scan(id, ports) => if !s.frozen { ScanOneName(s, id, Wanted(s.nodes[id].node, ports), now); }
    case _ => OtherOneName(s, a, now);
  }

  lemma PromotedOneName(s: State, present: Listing)
    requires Known(s) && OneName(s.routes)
    ensures OneName(Promoted(s.routes, s.restored, present))
  {
    if s.restored == map[] {
      assert Promoted(s.routes, s.restored, present) == s.routes;
    } else {
      assert forall k :: k in s.routes ==> false;
    }
  }

  lemma ScanOneName(s: State, id: NodeId, wanted: set<Key>, now: Time)
    requires OneName(s.routes) && forall j, k :: j in wanted && k in wanted ==> j.node == k.node
    ensures OneName(Confirmed(s, id, wanted, now).routes)
  {
    var r := Confirmed(s, id, wanted, now).routes;
    forall k | k in r ensures if r[k].nodeID == id then k in wanted else k in s.routes && s.routes[k].nodeID == r[k].nodeID {
    }
  }

  lemma {:induction false} RunKeepsOneName(s: State, acts: seq<Timed>, end: State)
    requires Inv(s) && OneName(s.routes) && Runs(s, acts, end)
    ensures OneName(end.routes)
    decreases |acts|
  {
    if acts != [] {
      var n := |acts| - 1;
      var mid :| Arrives(s, acts, mid, end);
      RunKeepsOneName(s, acts[..n], mid);
      RunKeeps(s, acts[..n], mid);
      StepKeepsOneName(mid, acts[n].act, acts[n].now);
    }
  }

  /** In every reachable state the preferred claimant of a port is one name, whatever the map order. */
  lemma PreferredIsUnique(s: State, acts: seq<Timed>, end: State, port: int, a: Name, b: Name)
    requires Inv(s) && s.routes == map[] && Runs(s, acts, end)
    requires Preferred(end, port, a) && Preferred(end, port, b)
    ensures a == b
  {
    RunKeepsOneName(s, acts, end);
    var newest := port == CODEX_PORT;
    if k :| PinnedRoute(end, port, k) {
    } else if AnyEligible(end.routes, port, false) {
      WinnerIsUnique(end.routes, port, newest, false, Key(a, port), Key(b, port));
    } else if AnyEligible(end.routes, port, true) {
      WinnerIsUnique(end.routes, port, newest, true, Key(a, port), Key(b, port));
    }
  }
}
