/**
  Batches of node operations: their members, the counters shown for them, and the
  admission of a batch against the store.

  A node ID and a name are numbers, 0 standing for every string the code refuses.
  */
module NodeBatch {

  type NodeId = nat
  type Name = nat
  type OpId = nat

  const BATCH_LIMIT: nat := 64
  const PARALLELISM: nat := 4

  datatype Status = Queued | Running | Canceling | Succeeded | Failed | Canceled | Interrupted

  predicate Busy(s: Status) { s == Running || s == Canceling }

  predicate Settled(s: Status) { s != Queued && !Busy(s) }

  datatype Member = Member(node: NodeId, name: Name, op: OpId, state: Status)

  /** What an operation reserves: a node, and a name that a node has or will have. */
  datatype Key = NodeKey(id: NodeId) | NameKey(name: Name)

  datatype Tally = Tally(total: nat, queued: nat, running: nat, succeeded: nat, failed: nat, canceled: nat, interrupted: nat)

  // ----- counting -----

  function Count(ms: seq<Member>, states: set<Status>): (n: nat) {
    if ms == [] then 0
    else Count(ms[..|ms| - 1], states) + if ms[|ms| - 1].state in states then 1 else 0
  }

  /** The counters as a single pass leaves them: how many members are in each state. */
  method Recount(ms: seq<Member>) returns (t: Tally)
    ensures t.total == |ms|
    ensures t.queued == Count(ms, {Queued}) && t.running == Count(ms, {Running, Canceling})
    ensures t.succeeded == Count(ms, {Succeeded}) && t.failed == Count(ms, {Failed})
    ensures t.canceled == Count(ms, {Canceled}) && t.interrupted == Count(ms, {Interrupted})
    ensures t.queued + t.running + t.succeeded + t.failed + t.canceled + t.interrupted == t.total
  {
    t := Tally(|ms|, 0, 0, 0, 0, 0, 0);
    for i := 0 to |ms|
      invariant t.total == |ms|
      invariant t.queued == Count(ms[..i], {Queued}) && t.running == Count(ms[..i], {Running, Canceling})
      invariant t.succeeded == Count(ms[..i], {Succeeded}) && t.failed == Count(ms[..i], {Failed})
      invariant t.canceled == Count(ms[..i], {Canceled}) && t.interrupted == Count(ms[..i], {Interrupted})
      invariant t.queued + t.running + t.succeeded + t.failed + t.canceled + t.interrupted == i
    {
      assert ms[..i + 1][..i] == ms[..i];
      match ms[i].state
      case Queued => t := t.(queued := t.queued + 1);
      case Running | Canceling => t := t.(running := t.running + 1);
      case Succeeded => t := t.(succeeded := t.succeeded + 1);
      case Failed => t := t.(failed := t.failed + 1);
      case Canceled => t := t.(canceled := t.canceled + 1);
      case Interrupted => t := t.(interrupted := t.interrupted + 1);
    }
    assert ms[..|ms|] == ms;
  }

  lemma {:induction false} CountZeroIff(ms: seq<Member>, states: set<Status>)
    ensures Count(ms, states) == 0 <==> forall m :: m in ms ==> m.state !in states
  {
    if ms != [] {
      CountZeroIff(ms[..|ms| - 1], states);
      assert ms == ms[..|ms| - 1] + [ms[|ms| - 1]];
    }
  }

  lemma {:induction false} CountUpdate(ms: seq<Member>, i: nat, s: Status, states: set<Status>)
    requires i < |ms|
    ensures Count(ms[i := ms[i].(state := s)], states) + (if ms[i].state in states then 1 else 0)
         == Count(ms, states) + (if s in states then 1 else 0)
  {
    var n := |ms| - 1;
    var us := ms[i := ms[i].(state := s)];
    if i < n {
      CountUpdate(ms[..n], i, s, states);
      assert us[..n] == ms[..n][i := ms[i].(state := s)];
    } else {
      assert us[..n] == ms[..n];
    }
  }

  /** A set of operations that each stand behind a member in one of these states is no larger than their count. */
  lemma {:induction false} CountCovers(ms: seq<Member>, states: set<Status>, ids: set<OpId>)
    requires forall id :: id in ids ==> exists m :: m in ms && m.op == id && m.state in states
    ensures |ids| <= Count(ms, states)
  {
    if ms == [] {
      assert ids == {};
    } else {
      var n := |ms| - 1;
      var last := ms[n];
      assert ms == ms[..n] + [last];
      var rest := if last.state in states then ids - {last.op} else ids;
      CountCovers(ms[..n], states, rest);
      assert ids <= rest + {last.op};
    }
  }

  // ----- admission against the store -----

  /** What a request may ask for; only the first five may stand in a batch. */
  datatype Kind = Start | Retry | Restart | Stop | Delete | Create | Unsupported

  datatype Target = Target(node: NodeId, name: Name, kind: Kind)
  datatype Stored = Stored(name: Name, deleted: bool)

  predicate TargetFits(t: Target, store: map<NodeId, Stored>) {
    && t.kind != Create && t.kind != Unsupported && t.node != 0 && t.name != 0
    && t.node in store && store[t.node].name == t.name && !store[t.node].deleted
  }

  ghost predicate DistinctNodes(ms: seq<Member>) {
    forall i, j :: 0 <= i < j < |ms| ==> ms[i].node != ms[j].node
  }

  ghost predicate DistinctOps(ms: seq<Member>) {
    forall i, j :: 0 <= i < j < |ms| ==> ms[i].op != ms[j].op
  }

  function KeysOf(ms: seq<Member>): (keys: set<Key>) {
    (set m | m in ms :: NodeKey(m.node)) + (set m | m in ms :: NameKey(m.name))
  }

  /** One changed or repeated target rejects the whole batch before any member exists. */
  method PrepareBatch(single: NodeId, targets: seq<Target>, store: map<NodeId, Stored>, newIds: seq<OpId>)
    returns (ok: bool, ms: seq<Member>, keys: set<Key>)
    requires |newIds| == |targets|
    ensures ok <==> && single == 0 && 1 <= |targets| <= 64
                    && (forall t :: t in targets ==>
                          && (t.kind == Start || t.kind == Retry || t.kind == Restart || t.kind == Stop || t.kind == Delete)
                          && t.node != 0 && t.name != 0
                          && t.node in store && store[t.node].name == t.name && !store[t.node].deleted)
                    && (forall i, j :: 0 <= i < j < |targets| ==> targets[i].node != targets[j].node)
    ensures ok ==> |ms| == |targets|
                   && (forall i :: 0 <= i < |ms| ==> ms[i] == Member(targets[i].node, targets[i].name, newIds[i], Queued))
                   && (forall key :: key in keys <==> exists t :: t in targets && (key == NodeKey(t.node) || key == NameKey(t.name)))
  {
    ok, ms, keys := false, [], {};
    if single == 0 && 0 < |targets| <= BATCH_LIMIT {
      ok, ms, keys := CollectMembers(targets, store, newIds);
      if ok {
        KeysAre(targets, ms);
      }
    }
    assert forall i :: 0 <= i < |targets| ==> targets[i] in targets;
  }

  ghost predicate FitTo(targets: seq<Target>, store: map<NodeId, Stored>, n: nat) {
    n <= |targets| && forall i :: 0 <= i < n ==> TargetFits(targets[i], store)
  }

  ghost predicate DistinctTo(targets: seq<Target>, n: nat) {
    n <= |targets| && forall i, j :: 0 <= i < j < n ==> targets[i].node != targets[j].node
  }

  ghost predicate MembersTo(targets: seq<Target>, newIds: seq<OpId>, ms: seq<Member>, n: nat) {
    && n <= |targets| && n <= |newIds| && |ms| == n
    && forall i :: 0 <= i < n ==> ms[i] == Member(targets[i].node, targets[i].name, newIds[i], Queued)
  }

  /** The loop over the targets. */
  method CollectMembers(targets: seq<Target>, store: map<NodeId, Stored>, newIds: seq<OpId>)
    returns (ok: bool, ms: seq<Member>, keys: set<Key>)
    requires |newIds| == |targets|
    ensures ok <==> FitTo(targets, store, |targets|) && DistinctTo(targets, |targets|)
    ensures ok ==> MembersTo(targets, newIds, ms, |targets|) && keys == KeysOf(ms)
  {
    ms, keys := [], {};
    var seen: set<NodeId> := {};
    for i := 0 to |targets|
      invariant FitTo(targets, store, i) && DistinctTo(targets, i) && MembersTo(targets, newIds, ms, i) && keys == KeysOf(ms)
      invariant forall n: NodeId :: n in seen <==> exists j :: 0 <= j < i && targets[j].node == n
    {
      var t := targets[i];
      if t.kind == Create || t.kind == Unsupported || t.node == 0 || t.name == 0 || t.node in seen
         || t.node !in store || store[t.node].name != t.name || store[t.node].deleted {
        return false, [], {};
      }
      seen := seen + {t.node};
      keys := keys + {NodeKey(t.node), NameKey(store[t.node].name)};
      KeysSnoc(ms, Member(t.node, t.name, newIds[i], Queued));
      ms := ms + [Member(t.node, t.name, newIds[i], Queued)];
    }
    ok := true;
  }

  lemma KeysAre(targets: seq<Target>, ms: seq<Member>)
    requires |ms| == |targets| && forall i :: 0 <= i < |ms| ==> ms[i].node == targets[i].node && ms[i].name == targets[i].name
    ensures forall key :: key in KeysOf(ms) <==> exists t :: t in targets && (key == NodeKey(t.node) || key == NameKey(t.name))
  {
    forall key | key in KeysOf(ms) ensures exists t :: t in targets && (key == NodeKey(t.node) || key == NameKey(t.name)) {
      var m :| m in ms && (key == NodeKey(m.node) || key == NameKey(m.name));
      var i :| 0 <= i < |ms| && ms[i] == m;
      assert targets[i] in targets;
    }
    forall t, key | t in targets && (key == NodeKey(t.node) || key == NameKey(t.name)) ensures key in KeysOf(ms) {
      var i :| 0 <= i < |targets| && targets[i] == t;
      assert ms[i] in ms;
    }
  }

  lemma KeysSnoc(ms: seq<Member>, m: Member)
    ensures KeysOf(ms + [m]) == KeysOf(ms) + {NodeKey(m.node), NameKey(m.name)}
  {
    assert forall x :: x in ms + [m] <==> x in ms || x == m;
  }
}
