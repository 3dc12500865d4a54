/**
  When a route answers: the failures of a node since it became known or was last scanned decide
  whether its routes are degraded, and a node that was never scanned has none that answers.
  */
module ForwardingFailures {
  import opened ForwardingRoutes

  /** What happened to a known node: whether it was ever scanned, its failures since, and whether a peer stands. */
  datatype Track = Track(seen: bool, failed: seq<Time>, peer: bool)

  type Tracks = map<NodeId, Track>

  const NEW: Track := Track(false, [], false)

  /** A later failure came fifteen seconds or more behind the first. */
  ghost predicate Degraded(failed: seq<Time>) {
    exists i :: 0 < i < |failed| && failed[i] >= failed[0] + 15
  }

  lemma DegradedSnoc(failed: seq<Time>, now: Time)
    ensures Degraded(failed + [now]) <==> Degraded(failed) || (|failed| > 0 && now >= failed[0] + 15)
  {
    var more := failed + [now];
    if Degraded(failed) {
      var i :| 0 < i < |failed| && failed[i] >= failed[0] + 15;
      assert more[i] >= more[0] + 15;
    }
    if |failed| > 0 && now >= failed[0] + 15 {
      assert more[|failed|] >= more[0] + 15;
    }
  }

  /** A failure that degrades the node also drops its peer. */
  ghost function Failing(t: Track, now: Time): (r: Track) {
    var more := t.failed + [now];
    Track(t.seen, more, t.peer && (Degraded(t.failed) || !Degraded(more)))
  }

  ghost function Continued(t: Track, id: NodeId, a: Action, now: Time, frozen: bool): (r: Track) {
    match a
    case Scan(scanned, _) => if scanned == id && !frozen then Track(true, [], t.peer) else t
    case Fail(failed) => if failed == id then Failing(t, now) else t
    case Peer(peered, up) => if peered == id then t.(peer := up) else t
    case _ => t
  }

  ghost function Tracking(s: State, tracks: Tracks, a: Action, now: Time, r: State): (more: Tracks) {
    map id | id in r.nodes :: if id in s.nodes && id in tracks then Continued(tracks[id], id, a, now, s.frozen) else NEW
  }

  /** A run with its tracks. */
  ghost predicate Tracked(s: State, acts: seq<Timed>, end: State, tracks: Tracks)
    decreases |acts|, 1
  {
    if acts == [] then end == s && tracks == map[] else exists mid, was :: TrackedBy(s, acts, mid, was, end, tracks)
  }

  ghost predicate TrackedBy(s: State, acts: seq<Timed>, mid: State, was: Tracks, end: State, tracks: Tracks)
    requires acts != []
    decreases |acts|, 0
  {
    var last := acts[|acts| - 1];
    && Tracked(s, acts[..|acts| - 1], mid, was) && Enabled(mid, last.act) && last.now != 0
    && end == Step(mid, last.act, last.now) && tracks == Tracking(mid, was, last.act, last.now, end)
  }

  lemma {:induction false} EveryRunIsTracked(s: State, acts: seq<Timed>, end: State) returns (tracks: Tracks)
    requires Runs(s, acts, end)
    ensures Tracked(s, acts, end, tracks)
    decreases |acts|
  {
    if acts == [] {
      tracks := map[];
    } else {
      var n := |acts| - 1;
      var mid :| Arrives(s, acts, mid, end);
      var was := EveryRunIsTracked(s, acts[..n], mid);
      tracks := Tracking(mid, was, acts[n].act, acts[n].now, end);
      assert TrackedBy(s, acts, mid, was, end, tracks);
    }
  }

  // ----- the counters -----

  ghost predicate Counts(n: NodeState, t: Track) {
    && n.failures == |t.failed| && n.firstFailureAt == (if t.failed == [] then 0 else t.failed[0])
    && n.routesLapsed == Degraded(t.failed) && n.peer == t.peer
  }

  ghost predicate AllCount(nodes: NodeStates, tracks: Tracks) {
    nodes.Keys == tracks.Keys && forall id :: id in nodes ==> Counts(nodes[id], tracks[id])
  }

  predicate Nonzero(failed: seq<Time>) {
    forall i :: 0 <= i < |failed| ==> failed[i] != 0
  }

  /** One failure, on the counters and on the times. */
  lemma FailCounts(s: State, id: NodeId, now: Time, t: Track)
    requires id in s.nodes && now != 0 && Counts(s.nodes[id], t) && Nonzero(t.failed)
    ensures Counts(Failed(s, id, now).nodes[id], Failing(t, now))
    ensures Lapses(s.nodes[id], now) <==> !Degraded(t.failed) && Degraded(t.failed + [now])
  {
    DegradedSnoc(t.failed, now);
  }

  /** What a step leaves of a node: what a track continues, or a new node. */
  lemma NodeMoves(s: State, a: Action, now: Time, id: NodeId)
    requires Enabled(s, a) && id in Step(s, a, now).nodes && !(a.Fail? && a.id == id)
    ensures var n := Step(s, a, now).nodes[id];
            if id !in s.nodes then n.failures == 0 && n.firstFailureAt == 0 && !n.routesLapsed && !n.peer
            else if a.Scan? && a.id == id && !s.frozen
            then n.failures == 0 && n.firstFailureAt == 0 && !n.routesLapsed && n.peer == s.nodes[id].peer
            else && n.failures == s.nodes[id].failures && n.firstFailureAt == s.nodes[id].firstFailureAt
                 && n.routesLapsed == s.nodes[id].routesLapsed
                 && n.peer == if a.Peer? && a.id == id then a.up else s.nodes[id].peer
  {
  }

  lemma StepCounts(s: State, tracks: Tracks, a: Action, now: Time)
    requires Enabled(s, a) && now != 0 && AllCount(s.nodes, tracks) && forall id :: id in tracks ==> Nonzero(tracks[id].failed)
    ensures AllCount(Step(s, a, now).nodes, Tracking(s, tracks, a, now, Step(s, a, now)))
    ensures var more := Tracking(s, tracks, a, now, Step(s, a, now)); forall id :: id in more ==> Nonzero(more[id].failed)
  {
    var r := Step(s, a, now);
    var more := Tracking(s, tracks, a, now, r);
    forall id | id in r.nodes ensures Counts(r.nodes[id], more[id]) && Nonzero(more[id].failed) {
      StepCount(s, tracks, a, now, id);
    }
  }

  lemma StepCount(s: State, tracks: Tracks, a: Action, now: Time, id: NodeId)
    requires Enabled(s, a) && now != 0 && id in Step(s, a, now).nodes && s.nodes.Keys == tracks.Keys
    requires id in s.nodes ==> Counts(s.nodes[id], tracks[id]) && Nonzero(tracks[id].failed)
    ensures var t := if id in s.nodes && id in tracks then Continued(tracks[id], id, a, now, s.frozen) else NEW;
            Counts(Step(s, a, now).nodes[id], t) && Nonzero(t.failed)
  {
    if a.Fail? && a.id == id {
      FailCounts(s, id, now, tracks[id]);
    } else {
      NodeMoves(s, a, now, id);
    }
  }

  lemma {:induction false} RunCounts(s: State, acts: seq<Timed>, end: State, tracks: Tracks)
    requires s.nodes == map[] && Tracked(s, acts, end, tracks)
    ensures AllCount(end.nodes, tracks) && forall id :: id in tracks ==> Nonzero(tracks[id].failed)
    decreases |acts|
  {
    if acts != [] {
      var n := |acts| - 1;
      var mid, was :| TrackedBy(s, acts, mid, was, end, tracks);
      RunCounts(s, acts[..n], mid, was);
      StepCounts(mid, was, acts[n].act, acts[n].now);
    }
  }

  /**
    In every run, a failure degrades exactly the routes of its node, and it does so exactly when
    it is the first to come at least fifteen seconds behind the first failure since the node
    became known or was last scanned. It changes no other route and no key.
    */
  lemma LapsesIff(s: State, acts: seq<Timed>, end: State, tracks: Tracks, id: NodeId, now: Time, k: Key)
    requires s.nodes == map[] && Tracked(s, acts, end, tracks) && now != 0 && k in end.routes
    ensures k in Failed(end, id, now).routes
    ensures var breaks := id in tracks && !Degraded(tracks[id].failed) && Degraded(tracks[id].failed + [now]);
            Failed(end, id, now).routes[k] ==
            Route(end.routes[k].nodeID, end.routes[k].discoveredAt, end.routes[k].lapsed || (breaks && end.routes[k].nodeID == id))
  {
    RunCounts(s, acts, end, tracks);
    FailMoves(end, id, now);
    if id in end.nodes {
      FailCounts(end, id, now, tracks[id]);
    }
  }

  // ----- which routes answer -----

  /** Every inventory gives a node the one name it was created with. */
  ghost predicate Names(acts: seq<Timed>, names: NodeId -> Name) {
    forall i, id :: 0 <= i < |acts| && acts[i].act.Inventory? && id in acts[i].act.present ==> acts[i].act.present[id].name == names(id)
  }

  ghost predicate NamesIn(a: Action, names: NodeId -> Name) {
    a.Inventory? ==> forall id :: id in a.present ==> a.present[id].name == names(id)
  }

  ghost predicate Named(s: State, names: NodeId -> Name) {
    && (forall id :: id in s.nodes ==> s.nodes[id].node.name == names(id))
    && (forall k :: k in s.routes ==> k.node == names(s.routes[k].nodeID))
  }

  /** A route answers exactly if its node was scanned and has not been degraded since. */
  ghost predicate AnswersAt(routes: Routes, tracks: Tracks, k: Key)
    requires k in routes
  {
    var r := routes[k];
    r.nodeID in tracks && (!r.lapsed <==> tracks[r.nodeID].seen && !Degraded(tracks[r.nodeID].failed))
  }

  ghost predicate Answers(s: State, tracks: Tracks) {
    forall k :: k in s.routes ==> AnswersAt(s.routes, tracks, k)
  }

  lemma SyncNamed(s: State, present: Listing, now: Time, names: NodeId -> Name)
    requires Known(s) && Named(s, names) && NamesIn(Inventory(present), names)
    ensures Named(Synced(s, present, now), names)
  {
    var r := Synced(s, present, now);
    forall id | id in r.nodes ensures r.nodes[id].node.name == names(id) {
      if !s.frozen {
        SyncNames(s, present, now, id);
      }
    }
    forall k | k in r.routes ensures k.node == names(r.routes[k].nodeID) {
      SyncMoves(s, present, now, k);
    }
  }

  /** An inventory read leaves the nodes it lists, under the names it gives. */
  lemma SyncNames(s: State, present: Listing, now: Time, id: NodeId)
    requires id in Synced(s, present, now).nodes && !s.frozen
    ensures id in present && Synced(s, present, now).nodes[id].node.name == present[id].name
  {
  }

  lemma ScanNamed(s: State, id: NodeId, ports: set<int>, now: Time, names: NodeId -> Name)
    requires Known(s) && id in s.nodes && Named(s, names)
    ensures Named(Scanned(s, id, ports, now), names)
  {
  }

  /** A failure changes whether the routes of its node answer, and no more of any route. */
  lemma FailMoves(s: State, id: NodeId, now: Time)
    ensures var r := Failed(s, id, now);
            && r.nodes.Keys == s.nodes.Keys && r.routes.Keys == s.routes.Keys
            && (forall i :: i in s.nodes ==> r.nodes[i].node == s.nodes[i].node)
            && (forall k :: k in s.routes ==>
                  r.routes[k] == s.routes[k].(lapsed := s.routes[k].lapsed || (s.routes[k].nodeID == id && id in s.nodes && Lapses(s.nodes[id], now))))
  {
    if id in s.nodes && Lapses(s.nodes[id], now) {
      LapsedMoves(s, id);
    }
  }

  lemma LapsedMoves(s: State, id: NodeId)
    ensures LapsedRoutes(s, id).routes.Keys == s.routes.Keys
    ensures forall k :: k in s.routes ==>
              LapsedRoutes(s, id).routes[k] == s.routes[k].(lapsed := s.routes[k].lapsed || s.routes[k].nodeID == id)
  {
  }

  lemma RestMoves(s: State, a: Action, now: Time)
    requires Enabled(s, a) && !a.Inventory? && !a.Scan? && !a.Fail?
    ensures var r := Step(s, a, now);
            r.nodes.Keys == s.nodes.Keys && r.routes == s.routes && forall i :: i in s.nodes ==> r.nodes[i].node == s.nodes[i].node
  {
  }

  lemma StepNamed(s: State, a: Action, now: Time, names: NodeId -> Name)
    requires Known(s) && Enabled(s, a) && Named(s, names) && NamesIn(a, names)
    ensures Named(Step(s, a, now), names)
  {
    if a.Inventory? {
      SyncNamed(s, a.present, now, names);
    } else if a.Scan? {
      ScanNamed(s, a.id, a.ports, now, names);
    } else if a.Fail? {
      FailMoves(s, a.id, now);
    } else {
      RestMoves(s, a, now);
    }
  }

  /** An inventory read leaves a route as it is, or turns a restored claim into a lapsed one. */
  lemma SyncMoves(s: State, present: Listing, now: Time, k: Key)
    requires k in Synced(s, present, now).routes
    ensures var r := Synced(s, present, now).routes[k];
            if k in s.routes then r == s.routes[k]
            else !s.frozen && k in s.restored && r.lapsed && r.nodeID in present && present[r.nodeID].name == k.node
  {
  }

  lemma SyncAnswers(s: State, tracks: Tracks, present: Listing, now: Time, k: Key)
    requires Inv(s) && WellNamed(present) && s.nodes.Keys == tracks.Keys && now != 0
    requires k in Synced(s, present, now).routes && (k in s.routes ==> AnswersAt(s.routes, tracks, k))
    ensures AnswersAt(Synced(s, present, now).routes, Tracking(s, tracks, Inventory(present), now, Synced(s, present, now)), k)
  {
    var r := Synced(s, present, now);
    SyncMoves(s, present, now, k);
    assert Known(r) by {
      SyncKeeps(s, present, now);
    }
    assert r.routes[k].nodeID in r.nodes;
  }

  /** A scan brings back what it saw, and leaves the routes of other nodes: no two nodes share a name. */
  lemma ScanMoves(s: State, id: NodeId, ports: set<int>, now: Time, k: Key, names: NodeId -> Name)
    requires Known(s) && Named(s, names) && id in s.nodes && !s.frozen && k in Scanned(s, id, ports, now).routes
    ensures var r := Scanned(s, id, ports, now).routes[k];
            if r.nodeID == id then !r.lapsed else k in s.routes && r == s.routes[k]
  {
    if k in s.routes && k in Wanted(s.nodes[id].node, ports) {
      assert s.nodes[s.routes[k].nodeID].node.name == s.nodes[id].node.name;
    }
  }

  lemma ScanAnswers(s: State, tracks: Tracks, id: NodeId, ports: set<int>, now: Time, k: Key, names: NodeId -> Name)
    requires Known(s) && Named(s, names) && id in s.nodes && s.nodes.Keys == tracks.Keys
    requires k in Scanned(s, id, ports, now).routes && (k in s.routes ==> AnswersAt(s.routes, tracks, k))
    ensures AnswersAt(Scanned(s, id, ports, now).routes, Tracking(s, tracks, Scan(id, ports), now, Scanned(s, id, ports, now)), k)
  {
    if !s.frozen {
      ScanMoves(s, id, ports, now, k, names);
      assert !Degraded([]);
    }
  }

  lemma FailAnswers(s: State, tracks: Tracks, id: NodeId, now: Time, k: Key)
    requires Known(s) && AllCount(s.nodes, tracks) && k in s.routes && AnswersAt(s.routes, tracks, k) && now != 0
    requires forall i :: i in tracks ==> Nonzero(tracks[i].failed)
    ensures Failed(s, id, now).routes.Keys == s.routes.Keys
    ensures AnswersAt(Failed(s, id, now).routes, Tracking(s, tracks, Fail(id), now, Failed(s, id, now)), k)
  {
    FailMoves(s, id, now);
    var r, at := Failed(s, id, now), s.routes[k].nodeID;
    FailTracks(s, tracks, id, now, r, at);
    if at == id {
      FailCounts(s, id, now, tracks[id]);
      DegradedSnoc(tracks[id].failed, now);
    }
  }

  lemma FailTracks(s: State, tracks: Tracks, id: NodeId, now: Time, r: State, at: NodeId)
    requires s.nodes.Keys == tracks.Keys && r.nodes.Keys == s.nodes.Keys && at in s.nodes
    ensures var more := Tracking(s, tracks, Fail(id), now, r);
            at in more && more[at].seen == tracks[at].seen && more[at].failed == if at == id then tracks[at].failed + [now] else tracks[at].failed
  {
  }

  lemma StepAnswers(s: State, tracks: Tracks, a: Action, now: Time, k: Key, names: NodeId -> Name)
    requires Inv(s) && Enabled(s, a) && AllCount(s.nodes, tracks) && Named(s, names) && now != 0
    requires k in Step(s, a, now).routes && (k in s.routes ==> AnswersAt(s.routes, tracks, k))
    requires forall i :: i in tracks ==> Nonzero(tracks[i].failed)
    ensures AnswersAt(Step(s, a, now).routes, Tracking(s, tracks, a, now, Step(s, a, now)), k)
  {
    if a.Inventory? {
      SyncAnswers(s, tracks, a.present, now, k);
    } else if a.Scan? {
      ScanAnswers(s, tracks, a.id, a.ports, now, k, names);
    } else if a.Fail? {
      FailMoves(s, a.id, now);
      FailAnswers(s, tracks, a.id, now, k);
    } else {
      RestAnswers(s, tracks, a, now, k);
    }
  }

  lemma RestAnswers(s: State, tracks: Tracks, a: Action, now: Time, k: Key)
    requires Known(s) && Enabled(s, a) && s.nodes.Keys == tracks.Keys && !a.Inventory? && !a.Scan? && !a.Fail?
    requires k in Step(s, a, now).routes && (k in s.routes ==> AnswersAt(s.routes, tracks, k))
    ensures AnswersAt(Step(s, a, now).routes, Tracking(s, tracks, a, now, Step(s, a, now)), k)
  {
    RestMoves(s, a, now);
  }

  /**
    In every run from a loaded state, a route answers if and only if its node was scanned since it
    became known and its failures since the last scan have not lasted fifteen seconds. A claim
    restored from disk therefore answers nothing until a scan confirms it.
    */
  lemma {:induction false} AnswersIff(s: State, acts: seq<Timed>, end: State, tracks: Tracks, names: NodeId -> Name)
    requires Inv(s) && s.nodes == map[] && s.routes == map[] && Tracked(s, acts, end, tracks) && Names(acts, names)
    ensures Inv(end) && Answers(end, tracks) && Named(end, names)
    decreases |acts|
  {
    if acts != [] {
      var n := |acts| - 1;
      var mid, was :| TrackedBy(s, acts, mid, was, end, tracks);
      AnswersIff(s, acts[..n], mid, was, names);
      RunCounts(s, acts[..n], mid, was);
      StepKeeps(mid, acts[n].act, acts[n].now);
      StepNamed(mid, acts[n].act, acts[n].now, names);
      forall k | k in end.routes ensures AnswersAt(end.routes, tracks, k) {
        StepAnswers(mid, was, acts[n].act, acts[n].now, k, names);
      }
    }
  }
}
