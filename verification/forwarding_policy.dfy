/**
  The saved routing preferences: what the loader accepts, what a snapshot of the
  tables holds, and what survives saving, loading and the first inventory read.
  */
module RoutingPolicy {
  import opened Wrappers
  import opened ForwardingRoutes
  import opened ForwardingClaimant

  datatype Claim = Claim(nodeID: NodeId, node: Name, port: int, discoveredAt: Time, removedAt: Time) {
    function At(): (k: Key) { Key(node, port) }
    function What(): (m: Memory) { Memory(nodeID, discoveredAt, removedAt) }
  }
  datatype PinEntry = PinEntry(port: int, nodeID: NodeId)
  datatype Policy = Policy(version: int, claims: seq<Claim>, pins: seq<PinEntry>)
  // ----- validation -----

  predicate ClaimValid(c: Claim) {
    ValidKey(c.At()) && ValidMemory(c.What())
  }

  ghost predicate DistinctKeys(claims: seq<Claim>) {
    forall i, j :: 0 <= i < j < |claims| ==> claims[i].At() != claims[j].At()
  }

  ghost predicate HasActive(claims: seq<Claim>, pin: PinEntry) {
    exists c :: c in claims && c.removedAt == 0 && PinEntry(c.port, c.nodeID) == pin
  }

  /** Well-formed claims under distinct keys, and one pin a port, each with an active claim. */
  ghost predicate Accepted(p: Policy) {
    && p.version == 1
    && (forall c :: c in p.claims ==> ClaimValid(c))
    && DistinctKeys(p.claims)
    && (forall e :: e in p.pins ==> HasActive(p.claims, e))
    && DistinctPorts(p.pins)
  }

  ghost predicate DistinctPorts(pins: seq<PinEntry>) {
    forall i, j :: 0 <= i < j < |pins| ==> pins[i].port != pins[j].port
  }

  method ValidateClaims(claims: seq<Claim>) returns (ok: bool, active: set<PinEntry>)
    ensures ok <==> (forall c :: c in claims ==> ClaimValid(c)) && DistinctKeys(claims)
    ensures ok ==> forall e :: e in active <==> HasActive(claims, e)
  {
    var seen: set<Key> := {};
    active := {};
    for i := 0 to |claims|
      invariant forall c :: c in claims[..i] ==> ClaimValid(c)
      invariant forall k :: k in seen <==> exists c :: c in claims[..i] && c.At() == k
      invariant DistinctKeys(claims[..i])
      invariant forall e :: e in active <==> HasActive(claims[..i], e)
    {
      var c := claims[i];
      assert c in claims;
      assert forall d :: d in claims[..i + 1] <==> d in claims[..i] || d == c;
      if c.nodeID == 0 || c.node == 0 || c.port < 1024 || c.port > 65535 || c.discoveredAt == 0 || c.At() in seen {
        if c.At() in seen {
          var d :| d in claims[..i] && d.At() == c.At();
          var j :| 0 <= j < i && claims[j] == d;
        }
        return false, {};
      }
      seen := seen + {c.At()};
      if c.removedAt == 0 {
        active := active + {PinEntry(c.port, c.nodeID)};
      }
    }
    assert claims[..|claims|] == claims;
    ok := true;
  }

  method ValidateRoutingPolicy(saved: Policy) returns (ok: bool)
    ensures ok <==> Accepted(saved)
  {
    if saved.version != 1 {
      return false;
    }
    var fine, active := ValidateClaims(saved.claims);
    if !fine {
      return false;
    }
    ok := ValidatePins(saved.pins, active);
    assert forall e :: e in saved.pins ==> (e in active <==> HasActive(saved.claims, e));
  }

  method ValidatePins(pins: seq<PinEntry>, active: set<PinEntry>) returns (ok: bool)
    ensures ok <==> (forall e :: e in pins ==> e in active) && DistinctPorts(pins)
  {
    var ports: set<int> := {};
    for i := 0 to |pins|
      invariant forall e :: e in pins[..i] ==> e in active
      invariant forall p: int :: p in ports <==> exists e :: e in pins[..i] && e.port == p
      invariant forall j, k :: 0 <= j < k < i ==> pins[j].port != pins[k].port
    {
      var e := pins[i];
      assert e in pins;
      assert forall d :: d in pins[..i + 1] <==> d in pins[..i] || d == e;
      if e !in active || e.port in ports {
        if e.port in ports {
          var d :| d in pins[..i] && d.port == e.port;
          var j :| 0 <= j < i && pins[j] == d;
        }
        return false;
      }
      assert forall j :: 0 <= j < i ==> pins[j] in pins[..i];
      ports := ports + {e.port};
    }
    assert pins[..|pins|] == pins;
    ok := true;
  }

  // ----- the snapshot -----

  function ActiveClaims(routes: Routes): (r: Claims) {
    map k | k in routes :: Memory(routes[k].nodeID, routes[k].discoveredAt, 0)
  }

  /** What the tables amount to on disk: routes over restored claims over remembered ones. */
  function Projection(s: State): (r: Claims) {
    s.discovered + s.restored + ActiveClaims(s.routes)
  }

  predicate ClaimLess(a: Claim, b: Claim) {
    a.node < b.node || (a.node == b.node && a.port < b.port)
  }

  ghost predicate ClaimsSorted(cs: seq<Claim>) {
    forall i, j :: 0 <= i < j < |cs| ==> ClaimLess(cs[i], cs[j])
  }

  ghost predicate PinsSorted(es: seq<PinEntry>) {
    forall i, j :: 0 <= i < j < |es| ==> es[i].port < es[j].port
  }

  function ClaimFor(k: Key, m: Memory): (c: Claim) {
    Claim(m.nodeID, k.node, k.port, m.discoveredAt, m.removedAt)
  }

  ghost predicate ClaimsDescribe(cs: seq<Claim>, claims: Claims) {
    ClaimsSorted(cs) && forall c: Claim :: c in cs <==> c.At() in claims && claims[c.At()] == c.What()
  }

  ghost predicate PinsDescribe(es: seq<PinEntry>, pins: Pins) {
    PinsSorted(es) && forall e: PinEntry :: e in es <==> e.port in pins && pins[e.port] == e.nodeID
  }

  /** The file holds exactly these claims and pins, in order. */
  ghost predicate Describes(saved: Policy, claims: Claims, pins: Pins) {
    saved.version == 1 && ClaimsDescribe(saved.claims, claims) && PinsDescribe(saved.pins, pins)
  }

  function InsertClaim(cs: seq<Claim>, c: Claim): (r: seq<Claim>)
    requires ClaimsSorted(cs) && forall d :: d in cs ==> d.At() != c.At()
    ensures ClaimsSorted(r) && forall d :: d in r <==> d in cs || d == c
  {
    if cs == [] || ClaimLess(cs[|cs| - 1], c) then cs + [c]
    else
      var n := |cs| - 1;
      var front := InsertClaim(cs[..n], c);
      assert cs == cs[..n] + [cs[n]];
      assert cs[n] in cs && cs[n].At() != c.At();
      assert ClaimLess(c, cs[n]);
      assert forall d :: d in front ==> ClaimLess(d, cs[n]);
      front + [cs[n]]
  }

  function InsertPin(es: seq<PinEntry>, e: PinEntry): (r: seq<PinEntry>)
    requires PinsSorted(es) && forall d :: d in es ==> d.port != e.port
    ensures PinsSorted(r) && forall d :: d in r <==> d in es || d == e
  {
    if es == [] || es[|es| - 1].port < e.port then es + [e]
    else
      var n := |es| - 1;
      var front := InsertPin(es[..n], e);
      assert es == es[..n] + [es[n]];
      assert forall d :: d in es[..n] ==> d.port < es[n].port;
      front + [es[n]]
  }

  method SnapshotClaims(claims: Claims) returns (cs: seq<Claim>)
    ensures ClaimsDescribe(cs, claims)
  {
    var keys := claims.Keys;
    cs := [];
    while keys != {}
      invariant keys <= claims.Keys && ClaimsSorted(cs)
      invariant forall c :: c in cs ==> c.At() in claims && c.At() !in keys && claims[c.At()] == c.What()
      invariant forall k :: k in claims && k !in keys ==> ClaimFor(k, claims[k]) in cs
    {
      var k :| k in keys;
      cs := InsertClaim(cs, ClaimFor(k, claims[k]));
      keys := keys - {k};
    }
  }

  method SnapshotPins(pins: Pins) returns (es: seq<PinEntry>)
    ensures PinsDescribe(es, pins)
  {
    var items := pins.Items;
    es := [];
    while items != {}
      invariant items <= pins.Items && PinsSorted(es)
      invariant forall e :: e in es ==> e.port in pins && (e.port, e.nodeID) !in items && pins[e.port] == e.nodeID
      invariant forall p :: p in pins && (p, pins[p]) !in items ==> PinEntry(p, pins[p]) in es
    {
      var item :| item in items;
      es := InsertPin(es, PinEntry(item.0, item.1));
      items := items - {item};
    }
  }

  /** The tables as a file, with `pins` in place of the current ones; none after a failed load. */
  method RoutingPolicySnapshot(s: State, pins: Pins, loadFailed: bool) returns (saved: Option<Policy>)
    ensures saved.None? <==> loadFailed
    ensures saved.Some? ==> Describes(saved.value, Projection(s), pins)
  {
    if loadFailed {
      return None;
    }
    var claims := SnapshotClaims(Projection(s));
    var entries := SnapshotPins(pins);
    saved := Some(Policy(1, claims, entries));
  }

  lemma {:induction false} SortedClaimsEqual(a: seq<Claim>, b: seq<Claim>)
    requires ClaimsSorted(a) && ClaimsSorted(b) && forall c :: c in a <==> c in b
    ensures a == b
  {
    assert (a != [] ==> a[|a| - 1] in a) && (b != [] ==> b[|b| - 1] in b);
    if a != [] && b != [] {
      var m, n := |a| - 1, |b| - 1;
      assert a[m] in b && b[n] in a;
      assert a[m] == b[n];
      assert forall c :: c in a[..m] <==> c in a && c != a[m];
      assert forall c :: c in b[..n] <==> c in b && c != b[n];
      SortedClaimsEqual(a[..m], b[..n]);
      assert a == a[..m] + [a[m]] && b == b[..n] + [b[n]];
    }
  }

  lemma {:induction false} SortedPinsEqual(a: seq<PinEntry>, b: seq<PinEntry>)
    requires PinsSorted(a) && PinsSorted(b) && forall e :: e in a <==> e in b
    ensures a == b
  {
    assert (a != [] ==> a[|a| - 1] in a) && (b != [] ==> b[|b| - 1] in b);
    if a != [] && b != [] {
      var m, n := |a| - 1, |b| - 1;
      assert a[m] in b && b[n] in a;
      assert a[m] == b[n];
      assert forall e :: e in a[..m] <==> e in a && e != a[m];
      assert forall e :: e in b[..n] <==> e in b && e != b[n];
      SortedPinsEqual(a[..m], b[..n]);
      assert a == a[..m] + [a[m]] && b == b[..n] + [b[n]];
    }
  }

  lemma SameClaims(a: seq<Claim>, b: seq<Claim>, claims: Claims)
    requires ClaimsDescribe(a, claims) && ClaimsDescribe(b, claims)
    ensures a == b
  {
    forall c: Claim ensures c in a <==> c in b {
      assert c == ClaimFor(c.At(), c.What());
    }
    SortedClaimsEqual(a, b);
  }

  lemma SamePinEntries(a: seq<PinEntry>, b: seq<PinEntry>, pins: Pins)
    requires PinsDescribe(a, pins) && PinsDescribe(b, pins)
    ensures a == b
  {
    forall e: PinEntry ensures e in a <==> e in b {
      assert e == PinEntry(e.port, e.nodeID);
    }
    SortedPinsEqual(a, b);
  }

  /** The file is a function of the tables: map order never shows, so an unchanged table is never rewritten. */
  lemma FileIsDetermined(a: Policy, b: Policy, claims: Claims, pins: Pins)
    requires Describes(a, claims, pins) && Describes(b, claims, pins)
    ensures a == b
  {
    SameClaims(a.claims, b.claims, claims);
    SamePinEntries(a.pins, b.pins, pins);
  }

  // ----- every reachable snapshot is accepted -----

  lemma ProjectionBacks(s: State, port: int)
    requires Inv(s) && port in s.pins
    ensures exists k :: k in Projection(s) && k.port == port && Projection(s)[k].nodeID == s.pins[port] && Projection(s)[k].removedAt == 0
  {
    assert PinBacked(s, port, s.pins[port]);
    if k :| k in s.routes && k.port == port && s.routes[k].nodeID == s.pins[port] {
      assert Projection(s)[k] == Memory(s.routes[k].nodeID, s.routes[k].discoveredAt, 0);
    } else {
      var k :| k in s.restored && k.port == port && s.restored[k].nodeID == s.pins[port];
      assert k !in s.routes;
      assert Projection(s)[k] == s.restored[k];
    }
  }

  lemma ProjectionValid(s: State, k: Key)
    requires Tables(s) && k in Projection(s)
    ensures ValidKey(k) && ValidMemory(Projection(s)[k])
  {
  }

  lemma PinHasActive(s: State, saved: Policy, e: PinEntry)
    requires Inv(s) && ClaimsDescribe(saved.claims, Projection(s)) && e.port in s.pins && s.pins[e.port] == e.nodeID
    ensures HasActive(saved.claims, e)
  {
    ProjectionBacks(s, e.port);
    var k :| k in Projection(s) && k.port == e.port && Projection(s)[k].nodeID == s.pins[e.port] && Projection(s)[k].removedAt == 0;
    assert ClaimFor(k, Projection(s)[k]) in saved.claims;
  }

  lemma SortedKeysDistinct(cs: seq<Claim>)
    requires ClaimsSorted(cs)
    ensures DistinctKeys(cs)
  {
    assert forall i, j :: 0 <= i < j < |cs| ==> ClaimLess(cs[i], cs[j]);
  }

  lemma SnapshotAccepted(s: State, saved: Policy)
    requires Inv(s) && Describes(saved, Projection(s), s.pins)
    ensures Accepted(saved)
  {
    forall c | c in saved.claims ensures ClaimValid(c) {
      ProjectionValid(s, c.At());
    }
    SortedKeysDistinct(saved.claims);
    forall e | e in saved.pins ensures HasActive(saved.claims, e) {
      PinHasActive(s, saved, e);
    }
    assert forall i, j :: 0 <= i < j < |saved.pins| ==> saved.pins[i].port < saved.pins[j].port;
  }

  // ----- loading -----

  /** The last claim under a key with this kind of removal time wins, as in the loading loop. */
  function LoadedClaims(claims: seq<Claim>, active: bool): (r: Claims) {
    if claims == [] then map[]
    else
      var c, front := claims[|claims| - 1], LoadedClaims(claims[..|claims| - 1], active);
      if (c.removedAt == 0) == active then front[c.At() := c.What()] else front
  }

  function LoadedPins(entries: seq<PinEntry>): (r: Pins) {
    if entries == [] then map[]
    else LoadedPins(entries[..|entries| - 1])[entries[|entries| - 1].port := entries[|entries| - 1].nodeID]
  }

  function Loaded(saved: Policy): (s: State) {
    State(map[], LoadedClaims(saved.claims, true), LoadedClaims(saved.claims, false), LoadedPins(saved.pins), map[], false)
  }

  /** A refused file leaves the tables empty and blocks every later snapshot. */
  method LoadRoutingPolicy(saved: Policy) returns (s: State, failed: bool)
    ensures failed <==> !Accepted(saved)
    ensures s == if failed then Loaded(Policy(1, [], [])) else Loaded(saved)
  {
    var ok := ValidateRoutingPolicy(saved);
    s, failed := State(map[], map[], map[], map[], map[], false), !ok;
    if failed {
      return;
    }
    for i := 0 to |saved.claims|
      invariant s == Loaded(Policy(1, saved.claims[..i], []))
    {
      var c := saved.claims[i];
      assert saved.claims[..i + 1][..i] == saved.claims[..i];
      if c.removedAt == 0 {
        s := s.(restored := s.restored[c.At() := c.What()]);
      } else {
        s := s.(discovered := s.discovered[c.At() := c.What()]);
      }
    }
    assert saved.claims[..|saved.claims|] == saved.claims;
    for i := 0 to |saved.pins|
      invariant s == Loaded(Policy(1, saved.claims, saved.pins[..i]))
    {
      var e := saved.pins[i];
      assert saved.pins[..i + 1][..i] == saved.pins[..i];
      s := s.(pins := s.pins[e.port := e.nodeID]);
    }
    assert saved.pins[..|saved.pins|] == saved.pins;
  }

  /** With distinct keys the loaded table holds exactly the claims of that kind. */
  lemma {:induction false} LoadedHolds(claims: seq<Claim>, active: bool, k: Key)
    requires DistinctKeys(claims)
    ensures k in LoadedClaims(claims, active) <==> exists c :: c in claims && c.At() == k && (c.removedAt == 0) == active
    ensures k in LoadedClaims(claims, active) ==> ClaimFor(k, LoadedClaims(claims, active)[k]) in claims
  {
    if claims != [] {
      var n := |claims| - 1;
      LoadedHolds(claims[..n], active, k);
      assert claims == claims[..n] + [claims[n]];
      assert claims[n] == ClaimFor(claims[n].At(), claims[n].What());
    }
  }

  lemma {:induction false} LoadedPinsHold(es: seq<PinEntry>, p: int)
    requires forall i, j :: 0 <= i < j < |es| ==> es[i].port != es[j].port
    ensures p in LoadedPins(es) <==> exists e :: e in es && e.port == p
    ensures p in LoadedPins(es) ==> PinEntry(p, LoadedPins(es)[p]) in es
  {
    if es != [] {
      var n := |es| - 1;
      LoadedPinsHold(es[..n], p);
      assert es == es[..n] + [es[n]];
    }
  }

  lemma LoadedInv(saved: Policy)
    requires Accepted(saved)
    ensures Inv(Loaded(saved))
  {
    var s := Loaded(saved);
    forall k | k in s.restored ensures ValidKey(k) && ValidMemory(s.restored[k]) && s.restored[k].removedAt == 0 {
      LoadedActive(saved.claims, true, k);
    }
    forall k | k in s.discovered ensures ValidKey(k) && ValidMemory(s.discovered[k]) && s.discovered[k].removedAt != 0 {
      LoadedActive(saved.claims, false, k);
    }
    forall p | p in s.pins ensures PinBacked(s, p, s.pins[p]) {
      LoadedPinsHold(saved.pins, p);
      var e := PinEntry(p, s.pins[p]);
      assert HasActive(saved.claims, e);
      var c :| c in saved.claims && c.removedAt == 0 && PinEntry(c.port, c.nodeID) == e;
      LoadedAt(saved.claims, c);
    }
  }

  /** After any run from any accepted file, routes and claims stand on ports 1024 to 65535, under a name, for a node and with a time. */
  lemma PortsInRange(saved: Policy, acts: seq<Timed>, end: State, k: Key)
    requires Accepted(saved) && Runs(Loaded(saved), acts, end)
    ensures k in end.routes || k in end.restored || k in end.discovered ==> 1024 <= k.port <= 65535 && k.node != 0
    ensures k in end.routes ==> end.routes[k].nodeID != 0 && end.routes[k].discoveredAt != 0
    ensures k in end.restored ==> end.restored[k].nodeID != 0 && end.restored[k].discoveredAt != 0
    ensures k in end.discovered ==> end.discovered[k].nodeID != 0 && end.discovered[k].discoveredAt != 0
  {
    LoadedInv(saved);
    RunKeeps(Loaded(saved), acts, end);
  }

  lemma LoadedActive(claims: seq<Claim>, active: bool, k: Key)
    requires DistinctKeys(claims) && k in LoadedClaims(claims, active) && forall c :: c in claims ==> ClaimValid(c)
    ensures var m := LoadedClaims(claims, active)[k]; ValidKey(k) && ValidMemory(m) && (m.removedAt == 0) == active
  {
    LoadedHolds(claims, active, k);
    var m := LoadedClaims(claims, active)[k];
    var c :| c in claims && c.At() == k && (c.removedAt == 0) == active;
    SameKey(claims, c, ClaimFor(k, m));
  }

  lemma SameKey(claims: seq<Claim>, a: Claim, b: Claim)
    requires DistinctKeys(claims) && a in claims && b in claims && a.At() == b.At()
    ensures a == b
  {
    var i :| 0 <= i < |claims| && claims[i] == a;
    var j :| 0 <= j < |claims| && claims[j] == b;
    assert i == j;
  }

  lemma LoadedAt(claims: seq<Claim>, c: Claim)
    requires DistinctKeys(claims) && c in claims
    ensures c.At() in LoadedClaims(claims, c.removedAt == 0) && LoadedClaims(claims, c.removedAt == 0)[c.At()] == c.What()
  {
    LoadedHolds(claims, c.removedAt == 0, c.At());
    SameKey(claims, c, ClaimFor(c.At(), LoadedClaims(claims, c.removedAt == 0)[c.At()]));
  }

  /**
    Whatever runs after loading any acceptable file, the snapshot is a file the loader
    accepts again.
    */
  lemma EverySnapshotAccepted(first: Policy, acts: seq<Timed>, end: State, saved: Policy)
    requires Accepted(first) && Runs(Loaded(first), acts, end) && Describes(saved, Projection(end), end.pins)
    ensures Accepted(saved)
  {
    LoadedInv(first);
    RunKeeps(Loaded(first), acts, end);
    SnapshotAccepted(end, saved);
  }

  // ----- round trip -----

  /** The claims a reload restores are exactly the active ones: restored claims and routes. */
  function ActiveOf(s: State): (r: Claims) {
    s.restored + ActiveClaims(s.routes)
  }

  /** The claims a reload remembers: the removed ones that no active claim has replaced. */
  function RemovedOf(s: State): (r: Claims) {
    s.discovered - ActiveOf(s).Keys
  }

  function Kind(claims: Claims, active: bool): (r: Claims) {
    map k | k in claims && (claims[k].removedAt == 0) == active :: claims[k]
  }

  lemma ReloadsKey(cs: seq<Claim>, claims: Claims, k: Key, active: bool)
    requires ClaimsDescribe(cs, claims)
    ensures var r := LoadedClaims(cs, active);
            && (k in r <==> k in claims && (claims[k].removedAt == 0) == active)
            && (k in r ==> r[k] == claims[k])
  {
    SortedKeysDistinct(cs);
    LoadedHolds(cs, active, k);
    if k in claims {
      LoadedAt(cs, ClaimFor(k, claims[k]));
    }
  }

  lemma ReloadsClaims(cs: seq<Claim>, claims: Claims, active: bool)
    requires ClaimsDescribe(cs, claims)
    ensures LoadedClaims(cs, active) == Kind(claims, active)
  {
    forall k: Key
      ensures k in LoadedClaims(cs, active) <==> k in Kind(claims, active)
      ensures k in LoadedClaims(cs, active) ==> LoadedClaims(cs, active)[k] == Kind(claims, active)[k]
    {
      ReloadsKey(cs, claims, k, active);
    }
  }

  lemma ProjectionAt(s: State, k: Key)
    requires Tables(s)
    ensures k in Projection(s) <==> k in s.discovered || k in ActiveOf(s)
    ensures k in ActiveOf(s) ==> Projection(s)[k] == ActiveOf(s)[k] && ActiveOf(s)[k].removedAt == 0
    ensures k in s.discovered && k !in ActiveOf(s) ==> Projection(s)[k] == s.discovered[k] && s.discovered[k].removedAt != 0
  {
  }

  lemma ProjectionKinds(s: State)
    requires Tables(s)
    ensures Kind(Projection(s), true) == ActiveOf(s) && Kind(Projection(s), false) == RemovedOf(s)
  {
    var whole, active, removed := Projection(s), ActiveOf(s), RemovedOf(s);
    forall k: Key
      ensures k in Kind(whole, true) <==> k in active
      ensures k in active ==> whole[k] == active[k]
      ensures k in Kind(whole, false) <==> k in removed
      ensures k in removed ==> whole[k] == removed[k]
    {
      ProjectionAt(s, k);
    }
  }

  /** Saving and reloading keeps the pins and every active claim, and every removed claim not since replaced. */
  lemma RoundTrip(s: State, saved: Policy)
    requires Inv(s) && Describes(saved, Projection(s), s.pins)
    ensures Loaded(saved) == State(map[], ActiveOf(s), RemovedOf(s), s.pins, map[], false)
  {
    ReloadsClaims(saved.claims, Projection(s), true);
    ReloadsClaims(saved.claims, Projection(s), false);
    ProjectionKinds(s);
    ReloadsPins(s.pins, saved.pins);
  }

  lemma ReloadsPins(pins: Pins, es: seq<PinEntry>)
    requires PinsDescribe(es, pins)
    ensures LoadedPins(es) == pins
  {
    var r := LoadedPins(es);
    forall p: int ensures (p in r <==> p in pins) && (p in r ==> r[p] == pins[p]) {
      LoadedPinsHold(es, p);
      if p in pins { assert PinEntry(p, pins[p]) in es; }
    }
  }

  lemma ProjectionReloaded(s: State, t: State)
    requires t == State(map[], ActiveOf(s), RemovedOf(s), s.pins, map[], false)
    ensures Projection(t) == Projection(s)
  {
  }

  /** A second save writes the same file. */
  lemma ResavesTheSame(s: State, saved: Policy, again: Policy)
    requires Inv(s) && Describes(saved, Projection(s), s.pins)
    requires Describes(again, Projection(Loaded(saved)), Loaded(saved).pins)
    ensures again == saved
  {
    RoundTrip(s, saved);
    ProjectionReloaded(s, Loaded(saved));
    FileIsDetermined(again, saved, Projection(s), s.pins);
  }

  // ----- the first inventory read after a reload -----

  /** All active claims of the pinned node on the port are under its current name. */
  ghost predicate ClaimsCurrent(s: State, present: Listing, port: int, id: NodeId)
    requires id in present
  {
    forall k :: k in s.restored && k.port == port && s.restored[k].nodeID == id ==> k.node == present[id].name
  }

  lemma FirstReview(s: State, present: Listing, now: Time, id: NodeId)
    requires s.nodes == map[] && id in NodesAwaited(s.nodes, s.restored, present)
    ensures id in present
    ensures id in ClearedIds(NodesAwaited(s.nodes, s.restored, present), present, now) <==> !present[id].ready
  {
  }

  /**
    A loaded pin survives the first inventory read exactly when its node is present and
    ready and no active claim for the node and port is under another name.
    */
  lemma FirstSyncPin(s: State, present: Listing, now: Time, port: int)
    requires Inv(s) && s.nodes == map[] && !s.frozen && port in s.pins
    ensures var id := s.pins[port];
            port in Synced(s, present, now).pins <==> id in present && present[id].ready && ClaimsCurrent(s, present, port, id)
  {
    var id := s.pins[port];
    assert PinBacked(s, port, id);
    var k :| k in s.restored && k.port == port && s.restored[k].nodeID == id;
    var nodes := NodesAwaited(s.nodes, s.restored, present);
    if FateOf(k, s.restored[k], present) == Drop {
      assert Unpinned(s.pins, s.restored, present, port);
    } else {
      assert Awaited(s.restored, present, id);
      FirstReview(s, present, now, id);
      assert Unpinned(s.pins, s.restored, present, port) <==> !ClaimsCurrent(s, present, port, id);
    }
  }

  /** And then the bare port belongs to that node, until a scan says otherwise. */
  lemma FirstSyncClaimant(s: State, present: Listing, now: Time, port: int, name: Name)
    requires Inv(s) && s.nodes == map[] && !s.frozen && port in s.pins && now != 0 && WellNamed(present)
    requires var id := s.pins[port]; id in present && present[id].ready && ClaimsCurrent(s, present, port, id)
    requires Preferred(Synced(s, present, now), port, name)
    ensures name == present[s.pins[port]].name
  {
    var r, id := Synced(s, present, now), s.pins[port];
    FirstSyncPin(s, present, now, port);
    SyncKeeps(s, present, now);
    NothingWaits(s, present, now);
    assert PinBacked(r, port, r.pins[port]);
    var k :| k in r.routes && k.port == port && r.routes[k].nodeID == id;
    assert PinnedRoute(r, port, k);
    assert Key(name, port) in r.routes && r.routes[Key(name, port)].nodeID == id;
    assert forall j :: j in r.routes ==> j in s.restored && r.routes[j].nodeID == s.restored[j].nodeID;
  }

  /** The pin of a present, ready node is lost when the file also claims the port for it under a former name. */
  lemma FormerNameDropsPin(present: Listing, now: Time)
    requires present == map[7 := Node(1, true, true)]
    ensures var saved := Policy(1, [Claim(7, 1, 3000, 5, 0), Claim(7, 2, 3000, 5, 0)], [PinEntry(3000, 7)]);
            Accepted(saved) && 3000 in Loaded(saved).pins && 3000 !in Synced(Loaded(saved), present, now).pins
  {
    var a, b, e := Claim(7, 1, 3000, 5, 0), Claim(7, 2, 3000, 5, 0), PinEntry(3000, 7);
    var saved := Policy(1, [a, b], [e]);
    assert a in saved.claims && b in saved.claims;
    assert HasActive(saved.claims, e);
    LoadedInv(saved);
    LoadedAt(saved.claims, b);
    LoadedPinsHold(saved.pins, 3000);
    assert e in saved.pins;
    FirstSyncPin(Loaded(saved), present, now, 3000);
  }

  // ----- files the daemons wrote themselves -----

  /** All these claims of a node stand under one name. */
  ghost predicate OneNameEach(claims: Claims) {
    forall j, k :: j in claims && k in claims && claims[j].nodeID == claims[k].nodeID ==> j.node == k.node
  }

  /** What a daemon reaches that started from a file with one name a node. */
  ghost predicate Own(s: State) {
    Inv(s) && OneNameEach(ActiveOf(s))
  }

  lemma StepShrinks(s: State, a: Action, now: Time)
    requires s.restored == map[] && Enabled(s, a)
    ensures Step(s, a, now).restored == map[]
  {
  }

  lemma ActiveRoutes(s: State)
    requires s.restored == map[]
    ensures OneNameEach(ActiveOf(s)) <==> OneName(s.routes)
  {
    assert forall k :: k in ActiveOf(s) <==> k in s.routes;
    assert forall k :: k in s.routes ==> ActiveOf(s)[k].nodeID == s.routes[k].nodeID;
  }

  /** The first read promotes restored claims under the names they had. */
  lemma FirstReadOwn(s: State, present: Listing, now: Time)
    requires Inv(s) && OneNameEach(s.restored) && s.routes == map[] && s.nodes == map[] && !s.frozen
    ensures OneNameEach(ActiveOf(Synced(s, present, now)))
  {
    var r := Synced(s, present, now);
    NothingWaits(s, present, now);
    forall k | k in r.routes ensures k in s.restored && r.routes[k].nodeID == s.restored[k].nodeID {
    }
    ActiveRoutes(r);
  }

  /** Before the first read nothing but that read touches the tables. */
  lemma WaitingStep(s: State, a: Action, now: Time)
    requires s.nodes == map[] && s.routes == map[] && Enabled(s, a) && (a.Inventory? ==> s.frozen)
    ensures Step(s, a, now).routes == s.routes && Step(s, a, now).restored == s.restored
  {
  }

  lemma SettledStepOwn(s: State, a: Action, now: Time)
    requires Inv(s) && OneNameEach(ActiveOf(s)) && s.restored == map[] && Enabled(s, a)
    ensures OneNameEach(ActiveOf(Step(s, a, now)))
  {
    ActiveRoutes(s);
    StepShrinks(s, a, now);
    StepKeepsOneName(s, a, now);
    ActiveRoutes(Step(s, a, now));
  }

  lemma ReloadedActive(s: State)
    requires s.routes == map[]
    ensures ActiveOf(s) == s.restored
  {
  }

  lemma WaitingStepOwn(s: State, a: Action, now: Time)
    requires Inv(s) && OneNameEach(s.restored) && s.nodes == map[] && s.routes == map[] && Enabled(s, a)
    ensures OneNameEach(ActiveOf(Step(s, a, now)))
  {
    if a.Inventory? && !s.frozen {
      FirstReadOwn(s, a.present, now);
    } else {
      WaitingStep(s, a, now);
      ReloadedActive(Step(s, a, now));
    }
  }

  lemma NothingRoutedYet(s: State)
    requires Known(s) && s.restored != map[]
    ensures s.nodes == map[] && s.routes == map[]
  {
    assert forall k :: k in s.routes ==> false;
  }

  lemma StepKeepsOwn(s: State, a: Action, now: Time)
    requires Own(s) && Enabled(s, a) && now != 0
    ensures Own(Step(s, a, now))
  {
    StepKeeps(s, a, now);
    if s.restored == map[] {
      SettledStepOwn(s, a, now);
    } else {
      NothingRoutedYet(s);
      ReloadedActive(s);
      WaitingStepOwn(s, a, now);
    }
  }

  lemma {:induction false} RunKeepsOwn(s: State, acts: seq<Timed>, end: State)
    requires Own(s) && Runs(s, acts, end)
    ensures Own(end)
    decreases |acts|
  {
    if acts != [] {
      var n := |acts| - 1;
      var mid :| Arrives(s, acts, mid, end);
      RunKeepsOwn(s, acts[..n], mid);
      StepKeepsOwn(mid, acts[n].act, acts[n].now);
    }
  }

  /** One daemon's life: it loads a file, runs, and saves another. */
  ghost predicate Leaves(first: Policy, acts: seq<Timed>, end: State, saved: Policy) {
    Runs(Loaded(first), acts, end) && Describes(saved, Projection(end), end.pins)
  }

  /** `saved` is the file of the n-th of a chain of daemons, the first of which found none. */
  ghost predicate Written(n: nat, saved: Policy) {
    if n == 0 then saved == Policy(1, [], [])
    else exists first, acts, end :: Written(n - 1, first) && Leaves(first, acts, end, saved)
  }

  lemma ReloadsAs(s: State, saved: Policy)
    requires Inv(s) && Describes(saved, Projection(s), s.pins)
    ensures Accepted(saved) && Inv(Loaded(saved))
  {
    SnapshotAccepted(s, saved);
    LoadedInv(saved);
  }

  lemma OwnReloads(s: State, saved: Policy)
    requires Own(s) && Describes(saved, Projection(s), s.pins)
    ensures Accepted(saved) && Own(Loaded(saved))
  {
    ReloadsAs(s, saved);
    RoundTrip(s, saved);
    ReloadedActive(Loaded(saved));
  }

  lemma WrittenBy(n: nat, saved: Policy) returns (first: Policy, acts: seq<Timed>, end: State)
    requires n > 0 && Written(n, saved)
    ensures Written(n - 1, first) && Leaves(first, acts, end, saved)
  {
    first, acts, end :| Written(n - 1, first) && Leaves(first, acts, end, saved);
  }

  lemma NoFileOwn()
    ensures Accepted(Policy(1, [], [])) && Own(Loaded(Policy(1, [], [])))
  {
    LoadedInv(Policy(1, [], []));
    ReloadedActive(Loaded(Policy(1, [], [])));
  }

  /** Every file in the chain is acceptable and has one name a node. */
  lemma {:induction false} WrittenOwn(n: nat, saved: Policy)
    requires Written(n, saved)
    ensures Accepted(saved) && Own(Loaded(saved))
  {
    if n == 0 {
      NoFileOwn();
    } else {
      var first, acts, end := WrittenBy(n, saved);
      WrittenOwn(n - 1, first);
      LeavesOwn(first, acts, end, saved);
    }
  }

  lemma LeavesOwn(first: Policy, acts: seq<Timed>, end: State, saved: Policy)
    requires Own(Loaded(first)) && Leaves(first, acts, end, saved)
    ensures Own(end) && Accepted(saved) && Own(Loaded(saved))
  {
    RunKeepsOwn(Loaded(first), acts, end);
    OwnReloads(end, saved);
  }

  lemma OwnPinCurrent(s: State, present: Listing, port: int, k: Key)
    requires OneNameEach(s.restored) && port in s.pins
    requires k in s.restored && k.port == port && s.restored[k].nodeID == s.pins[port]
    ensures s.pins[port] in present ==> (ClaimsCurrent(s, present, port, s.pins[port]) <==> present[s.pins[port]].name == k.node)
  {
  }

  lemma ReloadedPinFate(s: State, present: Listing, now: Time, k: Key)
    requires Inv(s) && OneNameEach(s.restored) && s.nodes == map[] && !s.frozen
    requires k.port in s.pins && k in s.restored && s.restored[k].nodeID == s.pins[k.port]
    ensures var id := s.pins[k.port];
            k.port in Synced(s, present, now).pins <==> id in present && present[id].ready && present[id].name == k.node
  {
    OwnPinCurrent(s, present, k.port, k);
    FirstSyncPin(s, present, now, k.port);
  }

  /** A daemon that starts with these active claims and pins. */
  ghost predicate StartsWith(t: State, claims: Claims, pins: Pins) {
    Inv(t) && t.restored == claims && t.pins == pins && t.nodes == map[] && !t.frozen
  }

  lemma CarriedPinFate(claims: Claims, pins: Pins, t: State, present: Listing, now: Time, k: Key)
    requires StartsWith(t, claims, pins) && OneNameEach(claims)
    requires k.port in pins && k in claims && claims[k].nodeID == pins[k.port]
    ensures k.port in Synced(t, present, now).pins <==>
            pins[k.port] in present && present[pins[k.port]].ready && present[pins[k.port]].name == k.node
  {
    ReloadedPinFate(t, present, now, k);
  }

  lemma ReloadShape(s: State, saved: Policy)
    requires Inv(s) && Describes(saved, Projection(s), s.pins)
    ensures StartsWith(Loaded(saved), ActiveOf(s), s.pins)
  {
    ReloadsAs(s, saved);
    RoundTrip(s, saved);
  }

  /** The next daemon starts with the claims and pins this one left, one name a node. */
  lemma NextStarts(n: nat, first: Policy, acts: seq<Timed>, end: State, saved: Policy)
    requires Written(n, first) && Leaves(first, acts, end, saved)
    ensures StartsWith(Loaded(saved), ActiveOf(end), end.pins) && OneNameEach(ActiveOf(end))
  {
    WrittenOwn(n, first);
    LeavesOwn(first, acts, end, saved);
    ReloadShape(end, saved);
  }

  /**
    In any chain of daemons, each loading the file the one before it wrote, a pin survives the
    next daemon's first inventory read if and only if its node is there, ready and not renamed.
    */
  lemma OwnPinSurvives(n: nat, first: Policy, acts: seq<Timed>, end: State, saved: Policy,
                       present: Listing, now: Time, k: Key)
    requires Written(n, first) && Leaves(first, acts, end, saved)
    requires k.port in end.pins && k in ActiveOf(end) && ActiveOf(end)[k].nodeID == end.pins[k.port]
    ensures k.port in Synced(Loaded(saved), present, now).pins <==>
            end.pins[k.port] in present && present[end.pins[k.port]].ready && present[end.pins[k.port]].name == k.node
  {
    NextStarts(n, first, acts, end, saved);
    CarriedPinFate(ActiveOf(end), end.pins, Loaded(saved), present, now, k);
  }

  lemma TwoNames(claims: seq<Claim>, a: Claim, b: Claim, s: State)
    requires DistinctKeys(claims) && a in claims && b in claims && a.removedAt == 0 && b.removedAt == 0
    requires a.nodeID == b.nodeID && a.node != b.node && s.routes == map[] && s.restored == LoadedClaims(claims, true)
    ensures !OneNameEach(ActiveOf(s))
  {
    LoadedAt(claims, a);
    LoadedAt(claims, b);
    ReloadedActive(s);
  }

  /** No daemon in any chain writes the file that loses its pin: it can only come from elsewhere. */
  lemma FormerNameIsForeign(n: nat)
    ensures !Written(n, Policy(1, [Claim(7, 1, 3000, 5, 0), Claim(7, 2, 3000, 5, 0)], [PinEntry(3000, 7)]))
  {
    var a, b := Claim(7, 1, 3000, 5, 0), Claim(7, 2, 3000, 5, 0);
    var saved := Policy(1, [a, b], [PinEntry(3000, 7)]);
    assert a in saved.claims && b in saved.claims && DistinctKeys(saved.claims);
    TwoNames(saved.claims, a, b, Loaded(saved));
    if Written(n, saved) {
      WrittenOwn(n, saved);
    }
  }
}
