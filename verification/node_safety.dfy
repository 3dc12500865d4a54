/**
  What every run of the node operation manager keeps, between any two crashes:
  the limits, the exclusion of competing operations, and the ties between a batch
  and its children.
  */
module NodeSafety {
  import opened Wrappers
  import opened NodeBatch
  import opened NodeOperations

  type Names = NodeId -> Name

  // ----- the invariant of the operation table -----

  ghost predicate Lively(ops: Ops) {
    forall id :: id in ops ==> if ops[id].live then Busy(ops[id].record.state) else Settled(ops[id].record.state)
  }

  ghost predicate Shows(ms: seq<Member>, id: OpId, node: NodeId) {
    exists m :: m in ms && m.op == id && m.node == node && Busy(m.state)
  }

  /** The batch is live and shows this child as running. */
  ghost predicate Backed(ops: Ops, root: OpId, child: OpId)
    requires child in ops
  {
    root in ops && ops[root].live && ops[root].record.members.Some?
    && Shows(ops[root].record.members.value, child, ops[child].record.node)
  }

  ghost predicate IsChild(op: Op) {
    op.live && op.record.batchId.Some?
  }

  ghost predicate Family(ops: Ops) {
    forall c :: c in ops && IsChild(ops[c]) ==>
                  ops[c].record.members.None? && ops[c].keys == {} && Backed(ops, ops[c].record.batchId.value, c)
  }

  ghost predicate ShapedOp(id: OpId, op: Op) {
    op.record.members.Some? ==>
      var ms := op.record.members.value;
      && op.record.batchId.None? && DistinctNodes(ms) && DistinctOps(ms)
      && (forall m :: m in ms ==> m.op != id)
      && (op.live ==> forall m :: m in ms ==> NodeKey(m.node) in op.keys)
  }

  ghost predicate Shaped(ops: Ops) {
    forall id :: id in ops ==> ShapedOp(id, ops[id])
  }

  ghost predicate Exclusive(ops: Ops) {
    forall a, b :: a in ops && b in ops && a != b && ops[a].live && ops[b].live ==> ops[a].keys !! ops[b].keys
  }

  ghost predicate AllPaired(ops: Ops, names: Names) {
    forall id :: id in ops && ops[id].live ==> Paired(ops[id].keys, names)
  }

  ghost predicate Limits(ops: Ops) {
    |Singles(ops)| <= OPERATION_LIMIT && forall r :: |Children(ops, r)| <= PARALLELISM
  }

  ghost predicate OpsInv(ops: Ops, names: Names) {
    Lively(ops) && Family(ops) && Shaped(ops) && Exclusive(ops) && AllPaired(ops, names) && Limits(ops)
  }

  lemma FewerLive(ops: Ops, less: Ops)
    requires Limits(ops)
    requires Singles(less) <= Singles(ops) && forall r :: Children(less, r) <= Children(ops, r)
    ensures Limits(less)
  {
    SubsetSize(Singles(less), Singles(ops));
    forall r ensures |Children(less, r)| <= PARALLELISM {
      SubsetSize(Children(less, r), Children(ops, r));
    }
  }

  // ----- steps that leave the reservations alone -----

  ghost predicate SimilarOp(a: Op, b: Op) {
    && a.live == b.live && a.keys == b.keys && a.record.members == b.record.members
    && a.record.batchId == b.record.batchId && a.record.node == b.record.node
    && (if a.live then Busy(b.record.state) else b.record.state == a.record.state)
  }

  ghost predicate Similar(a: Ops, b: Ops) {
    a.Keys == b.Keys && forall id :: id in a ==> SimilarOp(a[id], b[id])
  }

  lemma SimilarKeeps(a: Ops, b: Ops, names: Names)
    requires OpsInv(a, names) && Similar(a, b)
    ensures OpsInv(b, names)
  {
    forall c | c in b && IsChild(b[c])
      ensures b[c].record.members.None? && b[c].keys == {} && Backed(b, b[c].record.batchId.value, c)
    {
      assert SimilarOp(a[c], b[c]);
      assert Backed(a, a[c].record.batchId.value, c);
    }
    assert forall id :: id in b ==> SimilarOp(a[id], b[id]);
    FewerLive(a, b);
  }

  lemma CancelSimilar(ops: Ops, id: OpId)
    requires id in ops && ops[id].live && Lively(ops)
    ensures Similar(ops, CanceledOps(ops, id))
  {
  }

  lemma CloseSimilar(ops: Ops)
    requires Lively(ops)
    ensures Similar(ops, ClosedOps(ops))
  {
  }

  // ----- pruning -----

  lemma PruneKeeps(ops: Ops, gone: set<OpId>, now: Time, names: Names)
    requires OpsInv(ops, names) && gone <= ExpiredIds(ops, now)
    ensures OpsInv(ops - gone, names)
  {
    var left := ops - gone;
    forall id | id in gone ensures id in ops && !ops[id].live {
    }
    forall c | c in left && IsChild(left[c])
      ensures left[c].record.members.None? && left[c].keys == {} && Backed(left, left[c].record.batchId.value, c)
    {
      assert Backed(ops, ops[c].record.batchId.value, c);
    }
    FewerLive(ops, left);
  }

  // ----- admission -----

  lemma SinglesAdd(ops: Ops, id: OpId, op: Op)
    requires id in ops ==> !ops[id].live
    ensures |Singles(ops[id := op])| <= |Singles(ops)| + (if op.live && op.record.members.None? then 1 else 0)
  {
    var more := Singles(ops[id := op]);
    if op.live && op.record.members.None? {
      assert more == Singles(ops) + {id};
    } else {
      assert more == Singles(ops);
    }
  }

  lemma ChildrenAddRoot(ops: Ops, id: OpId, op: Op, r: OpId)
    requires (id in ops ==> !ops[id].live) && op.record.batchId.None?
    ensures Children(ops[id := op], r) == Children(ops, r)
  {
  }

  lemma AdmitFamily(ops: Ops, id: OpId, op: Op)
    requires Family(ops) && (id in ops ==> !ops[id].live) && op.record.batchId.None?
    ensures Family(ops[id := op])
  {
    var more := ops[id := op];
    forall c | c in more && IsChild(more[c])
      ensures more[c].record.members.None? && more[c].keys == {} && Backed(more, more[c].record.batchId.value, c)
    {
      assert c != id;
      assert Backed(ops, ops[c].record.batchId.value, c);
    }
  }

  lemma AdmitKeeps(ops: Ops, id: OpId, op: Op, names: Names)
    requires OpsInv(ops, names) && (id in ops ==> !ops[id].live)
    requires op.live && op.record.batchId.None? && Busy(op.record.state) && ShapedOp(id, op) && Paired(op.keys, names)
    requires !Conflicts(ops, op.keys) && (op.record.members.Some? || |Singles(ops)| < OPERATION_LIMIT)
    ensures OpsInv(ops[id := op], names)
  {
    var more := ops[id := op];
    AdmitFamily(ops, id, op);
    forall a | a in ops && a != id && ops[a].live ensures ops[a].keys !! op.keys {
      assert ops[a].keys * op.keys == {};
      assert forall k :: k in ops[a].keys && k in op.keys ==> k in ops[a].keys * op.keys;
    }
    SinglesAdd(ops, id, op);
    forall r ensures |Children(more, r)| <= PARALLELISM {
      ChildrenAddRoot(ops, id, op, r);
    }
  }

  // ----- a created node joins its operation's reservation -----

  /** The name reserved at admission already excludes every operation on the new node. */
  lemma BindKeeps(ops: Ops, id: OpId, node: NodeId, names: Names)
    requires OpsInv(ops, names) && id in ops && ops[id].live && ops[id].record.members.None? && ops[id].record.batchId.None?
    requires NameKey(names(node)) in ops[id].keys
    ensures OpsInv(ops[id := ops[id].(record := ops[id].record.(node := node), keys := ops[id].keys + {NodeKey(node)})], names)
  {
    var op := ops[id].(record := ops[id].record.(node := node), keys := ops[id].keys + {NodeKey(node)});
    var more := ops[id := op];
    forall c | c in more && IsChild(more[c])
      ensures more[c].record.members.None? && more[c].keys == {} && Backed(more, more[c].record.batchId.value, c)
    {
      assert c != id;
      assert Backed(ops, ops[c].record.batchId.value, c);
    }
    forall a | a in ops && a != id && ops[a].live ensures ops[a].keys !! op.keys {
      assert ops[a].keys !! ops[id].keys && Paired(ops[a].keys, names);
    }
    FewerLive(ops, more);
  }

  // ----- completion -----

  lemma CompleteKeeps(ops: Ops, id: OpId, record: Record, names: Names)
    requires OpsInv(ops, names) && id in ops && ops[id].live && ops[id].record.members.None?
    requires Settled(record.state) && record.members.None?
    ensures OpsInv(ops[id := ops[id].(record := record, live := false)], names)
  {
    var less := ops[id := ops[id].(record := record, live := false)];
    forall c | c in less && IsChild(less[c])
      ensures less[c].record.members.None? && less[c].keys == {} && Backed(less, less[c].record.batchId.value, c)
    {
      assert Backed(ops, ops[c].record.batchId.value, c);
    }
    FewerLive(ops, less);
  }

  // ----- recovery -----

  lemma NothingLive(ops: Ops, names: Names)
    requires forall id :: id in ops ==> !ops[id].live && Settled(ops[id].record.state) && ShapedOp(id, ops[id])
    ensures OpsInv(ops, names)
  {
    assert Singles(ops) == {};
    forall r ensures |Children(ops, r)| <= PARALLELISM {
      assert Children(ops, r) == {};
    }
  }

  // ----- a batch tick -----

  /** Only the states of the members differ. */
  ghost predicate SameTargets(a: seq<Member>, b: seq<Member>) {
    |a| == |b| && forall i :: 0 <= i < |a| ==> b[i] == a[i].(state := b[i].state)
  }

  lemma SameTargetsShape(a: seq<Member>, b: seq<Member>)
    requires SameTargets(a, b)
    ensures DistinctOps(a) ==> DistinctOps(b)
    ensures DistinctNodes(a) ==> DistinctNodes(b)
    ensures forall m :: m in b ==> exists n :: n in a && n.op == m.op && n.node == m.node
  {
    forall m | m in b ensures exists n :: n in a && n.op == m.op && n.node == m.node {
      var i :| 0 <= i < |b| && b[i] == m;
      assert a[i] in a;
    }
  }

  ghost predicate NewChild(op: Op, root: OpId) {
    op.live && op.record.batchId == Some(root) && op.record.members.None? && op.keys == {} && op.record.state == Running
  }

  /** The table so far: the one the tick started from, and new children of the batch. */
  ghost predicate Extends(base: Ops, ops: Ops, root: OpId) {
    && (forall id :: id in base ==> id in ops && ops[id] == base[id])
    && (forall id :: id in ops && id !in base ==> NewChild(ops[id], root))
  }

  ghost predicate AllShown(ops: Ops, ms: seq<Member>, root: OpId) {
    forall c :: c in Children(ops, root) ==> Shows(ms, c, ops[c].record.node)
  }

  ghost predicate Waiting(ops: Ops, ms: seq<Member>, n: nat) {
    forall i :: n <= i < |ms| && ms[i].state == Queued ==> ms[i].op !in ops
  }

  /** What the launching pass keeps after its first `n` members. */
  ghost predicate Launching(base: Ops, ms: seq<Member>, x: Sched, root: OpId, n: nat) {
    && Extends(base, x.ops, root) && SameTargets(ms, x.ms)
    && x.active == |Singles(x.ops)| <= OPERATION_LIMIT
    && x.running == Count(x.ms, BUSY)
    && |Children(x.ops, root)| <= PARALLELISM
    && AllShown(x.ops, x.ms, root) && Waiting(x.ops, x.ms, n)
  }

  /** A member that changes from a state that is not busy hides no other member. */
  lemma StillShown(ms: seq<Member>, i: nat, s: Status, id: OpId, node: NodeId)
    requires i < |ms| && !Busy(ms[i].state) && Shows(ms, id, node)
    ensures Shows(ms[i := ms[i].(state := s)], id, node)
  {
    var m :| m in ms && m.op == id && m.node == node && Busy(m.state);
    var j :| 0 <= j < |ms| && ms[j] == m;
    assert ms[i := ms[i].(state := s)][j] == m;
  }

  lemma ChildrenShownCount(ops: Ops, ms: seq<Member>, root: OpId)
    requires AllShown(ops, ms, root)
    ensures |Children(ops, root)| <= Count(ms, BUSY)
  {
    forall id | id in Children(ops, root) ensures exists m :: m in ms && m.op == id && m.state in BUSY {
      assert Shows(ms, id, ops[id].record.node);
    }
    CountCovers(ms, BUSY, Children(ops, root));
  }

  lemma LaunchCounts(ops: Ops, root: OpId, id: OpId, op: Op)
    requires id !in ops && NewChild(op, root)
    ensures Singles(ops[id := op]) == Singles(ops) + {id} && Children(ops[id := op], root) == Children(ops, root) + {id}
  {
  }

  lemma LaunchFails(base: Ops, ms: seq<Member>, x: Sched, root: OpId, n: nat)
    requires Launching(base, ms, x, root, n) && n < |ms| && x.ms[n].state == Queued
    ensures Launching(base, ms, FailedAt(x, n), root, n + 1)
  {
    CountUpdate(x.ms, n, Failed, BUSY);
    forall c | c in Children(x.ops, root) ensures Shows(x.ms[n := x.ms[n].(state := Failed)], c, x.ops[c].record.node) {
      StillShown(x.ms, n, Failed, c, x.ops[c].record.node);
    }
  }

  lemma StartShows(ops: Ops, ms: seq<Member>, root: OpId, now: Time, n: nat)
    requires n < |ms| && AllShown(ops, ms, root) && ms[n].state == Queued && ms[n].op !in ops
    ensures AllShown(ops[ms[n].op := Child(ms[n], root, now)], ms[n := ms[n].(state := Running)], root)
  {
    var m := ms[n];
    var more, us := ops[m.op := Child(m, root, now)], ms[n := m.(state := Running)];
    forall c | c in Children(more, root) ensures Shows(us, c, more[c].record.node) {
      if c == m.op {
        assert us[n] in us;
      } else {
        assert c in Children(ops, root);
        StillShown(ms, n, Running, c, ops[c].record.node);
      }
    }
  }

  lemma StartWaits(ops: Ops, ms: seq<Member>, root: OpId, now: Time, n: nat)
    requires n < |ms| && Waiting(ops, ms, n) && DistinctOps(ms)
    ensures Waiting(ops[ms[n].op := Child(ms[n], root, now)], ms[n := ms[n].(state := Running)], n + 1)
  {
  }

  lemma StartExtends(base: Ops, ops: Ops, root: OpId, m: Member, now: Time)
    requires Extends(base, ops, root) && m.op !in ops
    ensures Extends(base, ops[m.op := Child(m, root, now)], root)
  {
  }

  lemma StartTargets(ms: seq<Member>, us: seq<Member>, n: nat, s: Status)
    requires SameTargets(ms, us) && n < |ms|
    ensures SameTargets(ms, us[n := us[n].(state := s)])
  {
  }

  lemma LaunchStarts(base: Ops, ms: seq<Member>, x: Sched, root: OpId, now: Time, n: nat)
    requires Launching(base, ms, x, root, n) && n < |ms| && DistinctOps(x.ms) && Launches(x, n)
    ensures Launching(base, ms, StartedAt(x, n, root, now), root, n + 1)
  {
    var m := x.ms[n];
    var y := StartedAt(x, n, root, now);
    assert m.op !in x.ops;
    assert y.running == Count(y.ms, BUSY) by { CountUpdate(x.ms, n, Running, BUSY); }
    assert y.active == |Singles(y.ops)| <= OPERATION_LIMIT && |Children(y.ops, root)| <= PARALLELISM by {
      ChildrenShownCount(x.ops, x.ms, root);
      LaunchCounts(x.ops, root, m.op, Child(m, root, now));
    }
    StartExtends(base, x.ops, root, m, now);
    StartTargets(ms, x.ms, n, Running);
    StartShows(x.ops, x.ms, root, now, n);
    StartWaits(x.ops, x.ms, root, now, n);
  }

  lemma LaunchStep(base: Ops, ms: seq<Member>, x: Sched, root: OpId, now: Time, n: nat, saved: bool)
    requires Launching(base, ms, x, root, n) && n < |ms| && DistinctOps(ms)
    ensures Launching(base, ms, LaunchAt(x, n, root, now, saved), root, n + 1)
  {
    SameTargetsShape(ms, x.ms);
    if Launches(x, n) {
      if saved {
        LaunchStarts(base, ms, x, root, now, n);
      } else {
        LaunchFails(base, ms, x, root, n);
      }
    }
  }

  /** What holds before the first member, and is carried past each one, holds after any number of them. */
  lemma {:induction false} LaunchInduction(kept: (Sched, nat) -> bool, x: Sched, root: OpId, now: Time, saves: seq<bool>, n: nat)
    requires n <= |x.ms| && n <= |saves| && kept(x, 0)
    requires forall y: Sched, i: nat, saved: bool :: i < |x.ms| && |y.ms| == |x.ms| && kept(y, i) ==> kept(LaunchAt(y, i, root, now, saved), i + 1)
    ensures kept(LaunchTo(x, n, root, now, saves), n)
  {
    if n > 0 {
      LaunchInduction(kept, x, root, now, saves, n - 1);
    }
  }

  lemma LaunchPass(base: Ops, ms: seq<Member>, x: Sched, root: OpId, now: Time, saves: seq<bool>, n: nat)
    requires Launching(base, ms, x, root, 0) && n <= |ms| && |saves| == |ms| && DistinctOps(ms)
    ensures Launching(base, ms, LaunchTo(x, n, root, now, saves), root, n)
  {
    var kept := (y: Sched, i: nat) => Launching(base, ms, y, root, i);
    forall y: Sched, i: nat, saved: bool | i < |ms| && |y.ms| == |ms| && kept(y, i) ensures kept(LaunchAt(y, i, root, now, saved), i + 1) {
      LaunchStep(base, ms, y, root, now, i, saved);
    }
    LaunchInduction(kept, x, root, now, saves, n);
  }

  /** Following the operations shows every live child, and leaves queued only what has no operation. */
  lemma SyncStarts(s: State, root: OpId, ms: seq<Member>, names: Names)
    requires OpsInv(s.ops, names) && root in s.ops && s.ops[root].record.members.Some?
    requires ms == SyncedMembers(s.ops[root].record.members.value, s.ops, s.ops[root].cause)
    ensures Launching(s.ops, ms, Started(s, root, ms), root, 0)
  {
    var was := s.ops[root].record.members.value;
    forall c | c in Children(s.ops, root) ensures Shows(ms, c, s.ops[c].record.node) {
      assert Backed(s.ops, root, c);
      var m :| m in was && m.op == c && m.node == s.ops[c].record.node && Busy(m.state);
      var i :| 0 <= i < |was| && was[i] == m;
      assert ms[i] in ms;
    }
  }

  lemma DoneIff(ms: seq<Member>)
    ensures Done(ms) <==> forall m :: m in ms ==> Settled(m.state)
  {
    CountZeroIff(ms, {Queued});
    CountZeroIff(ms, BUSY);
  }

  lemma ConcludedFamily(base: Ops, ops: Ops, ms: seq<Member>, root: OpId, op: Op)
    requires Family(base) && Extends(base, ops, root) && root in base && base[root].live && base[root].record.members.Some?
    requires base[root].record.batchId.None?
    requires AllShown(ops, ms, root)
    requires op.record.members == Some(ms) && op.live == !Done(ms) && op.record.batchId.None?
    ensures Family(ops[root := op])
  {
    var r := ops[root := op];
    DoneIff(ms);
    forall c | c in r && IsChild(r[c])
      ensures r[c].record.members.None? && r[c].keys == {} && Backed(r, r[c].record.batchId.value, c)
    {
      if ops[c].record.batchId == Some(root) {
        assert c in Children(ops, root);
        assert Shows(ms, c, ops[c].record.node);
      } else {
        assert Backed(base, base[c].record.batchId.value, c);
      }
    }
  }

  lemma ConcludedLimits(base: Ops, ops: Ops, root: OpId, op: Op)
    requires Limits(base) && Extends(base, ops, root) && root in base
    requires base[root].record.members.Some? && base[root].record.batchId.None?
    requires op.record.members.Some? && op.record.batchId.None?
    requires |Singles(ops)| <= OPERATION_LIMIT && |Children(ops, root)| <= PARALLELISM
    ensures Limits(ops[root := op])
  {
    var r := ops[root := op];
    assert Singles(r) == Singles(ops);
    forall b ensures |Children(r, b)| <= PARALLELISM {
      assert Children(r, b) == Children(ops, b);
      if b != root {
        assert Children(ops, b) == Children(base, b);
      }
    }
  }

  lemma ConcludedRest(base: Ops, ops: Ops, ms: seq<Member>, root: OpId, op: Op, names: Names)
    requires Lively(base) && Shaped(base) && Exclusive(base) && AllPaired(base, names)
    requires Extends(base, ops, root) && root in base && base[root].live && base[root].record.members.Some?
    requires SameTargets(base[root].record.members.value, ms)
    requires op.record.members == Some(ms) && op.record.batchId.None? && op.keys == base[root].keys
    requires if op.live then Busy(op.record.state) else Settled(op.record.state)
    ensures Lively(ops[root := op]) && Shaped(ops[root := op]) && Exclusive(ops[root := op]) && AllPaired(ops[root := op], names)
  {
    SameTargetsShape(base[root].record.members.value, ms);
    var r := ops[root := op];
    forall id | id in r ensures ShapedOp(id, r[id]) {
      if id in base {
        assert ShapedOp(id, base[id]);
      }
    }
  }

  lemma SweepKeeps(s: State, root: OpId, saves: seq<bool>, names: Names)
    requires OpsInv(s.ops, names) && root in s.ops && s.ops[root].record.members.Some?
    requires |saves| == |s.ops[root].record.members.value|
    ensures Launching(s.ops, s.ops[root].record.members.value, Swept(s, root, saves), root, |saves|)
  {
    var op := s.ops[root];
    var was := op.record.members.value;
    var ms := SyncedMembers(was, s.ops, op.cause);
    assert ShapedOp(root, op) && SameTargets(was, ms);
    SameTargetsShape(was, ms);
    SyncStarts(s, root, ms, names);
    if op.cause == Going {
      LaunchPass(s.ops, ms, Started(s, root, ms), root, s.clock, saves, |ms|);
    }
  }

  /** How a tick leaves the batch itself. */
  lemma RootAfter(s: State, root: OpId, y: Sched, saved: bool)
    requires root in s.ops && s.ops[root].live && Busy(s.ops[root].record.state)
    ensures var op := Concluded(s, root, y, saved).ops[root];
            && op.record.members == Some(y.ms) && op.record.batchId == s.ops[root].record.batchId
            && op.keys == s.ops[root].keys && op.live == !Done(y.ms)
            && (if op.live then Busy(op.record.state) else Settled(op.record.state))
  {
  }

  lemma TickKeeps(s: State, root: OpId, saves: seq<bool>, saved: bool, names: Names)
    requires OpsInv(s.ops, names) && root in s.ops && s.ops[root].live && s.ops[root].record.members.Some?
    requires |saves| == |s.ops[root].record.members.value|
    ensures OpsInv(Ticked(s, root, saves, saved).ops, names)
  {
    var y := Swept(s, root, saves);
    SweepKeeps(s, root, saves, names);
    RootAfter(s, root, y, saved);
    assert ShapedOp(root, s.ops[root]);
    var after := Concluded(s, root, y, saved).ops[root];
    ConcludedFamily(s.ops, y.ops, y.ms, root, after);
    ConcludedLimits(s.ops, y.ops, root, after);
    ConcludedRest(s.ops, y.ops, y.ms, root, after, names);
    assert Concluded(s, root, y, saved).ops == y.ops[root := after];
  }
}
