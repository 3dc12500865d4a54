/**
  What the node operation manager guarantees over every run, crashes included.
  */
module NodeGuarantees {
  import opened Wrappers
  import opened NodeBatch
  import opened NodeOperations
  import opened NodeSafety
  import opened NodeHistory
  import opened NodeLineage

  ghost predicate Inv(s: State, names: Names) {
    OpsInv(s.ops, names) && History(s) && Lineage(s)
  }

  lemma SubmitOps(s: State, req: Request, gone: set<OpId>, pruned: bool, saved: bool, names: Names)
    requires Inv(s, names) && Enabled(s, Submit(req, gone, pruned, saved), names)
    ensures OpsInv(Submitted(s, req, gone, pruned, saved).ops, names)
  {
    if s.up && !s.closed && !Repeated(s.ops, req.id, s.clock) {
      PruneKeeps(s.ops, gone, s.clock, names);
      if pruned && Admissible(s.ops - gone, req) && saved {
        AdmitKeeps(s.ops - gone, req.id, Op(Receipt(req, s.clock), req.keys, true, Going), names);
      }
    }
  }

  lemma RecoverOps(s: State, names: Names)
    requires History(s)
    ensures OpsInv(Recovered(s).ops, names)
  {
    var ops := Recovered(s).ops;
    forall id | id in ops ensures !ops[id].live && Settled(ops[id].record.state) && ShapedOp(id, ops[id]) {
      RecoveredOk(s.disk, s.clock, id);
    }
    NothingLive(ops, names);
  }

  lemma WaitHistory(s: State, to: Time)
    requires History(s) && to >= s.clock
    ensures History(s.(clock := to))
  {
    forall id | id in s.disk ensures RecordOk(id, s.disk[id], to) {
      assert RecordOk(id, s.disk[id], s.clock);
    }
    forall e | e in s.log ensures NodeHistory.Remembered(e, s.disk, to) {
      assert NodeHistory.Remembered(e, s.disk, s.clock);
    }
  }

  lemma CancelOps(s: State, id: OpId, saved: bool, names: Names)
    requires OpsInv(s.ops, names) && id in s.ops
    ensures OpsInv(CancelRequested(s, id, saved).ops, names)
  {
    if s.ops[id].live && saved {
      CancelSimilar(s.ops, id);
      SimilarKeeps(s.ops, CanceledOps(s.ops, id), names);
    }
  }

  lemma CloseOps(s: State, names: Names)
    requires OpsInv(s.ops, names)
    ensures OpsInv(ShutDown(s).ops, names)
  {
    CloseSimilar(s.ops);
    SimilarKeeps(s.ops, ClosedOps(s.ops), names);
  }

  lemma CompleteOps(s: State, id: OpId, failed: bool, stopFailed: bool, saved: bool, names: Names)
    requires OpsInv(s.ops, names) && id in s.ops && s.ops[id].live && s.ops[id].record.members.None?
    ensures OpsInv(Completed(s, id, failed, stopFailed, saved).ops, names)
  {
    CompleteKeeps(s.ops, id, Completed(s, id, failed, stopFailed, saved).ops[id].record, names);
  }

  lemma CrashOps(s: State, names: Names)
    ensures OpsInv(Crashed(s).ops, names)
  {
    NothingLive(map[], names);
  }

  lemma StepOps(s: State, a: Action, names: Names)
    requires Inv(s, names) && Enabled(s, a, names)
    ensures OpsInv(Step(s, a, names).ops, names)
  {
    match a
    case Wait(_) =>
    case Submit(req, gone, pruned, saved) => SubmitOps(s, req, gone, pruned, saved, names);
    case Bind(id, node, saved) => BindKeeps(s.ops, id, node, names);
    case Cancel(id, saved) => CancelOps(s, id, saved, names);
    case Close => CloseOps(s, names);
    case Complete(id, failed, stopFailed, saved) => CompleteOps(s, id, failed, stopFailed, saved, names);
    case Tick(root, saves, saved) => TickKeeps(s, root, saves, saved, names);
    case Crash => CrashOps(s, names);
    case HalfRecover(_, _, _) =>
    case Recover => RecoverOps(s, names);
  }

  lemma StepHistory(s: State, a: Action, names: Names)
    requires Inv(s, names) && Enabled(s, a, names)
    ensures History(Step(s, a, names))
  {
    match a
    case Wait(to) => WaitHistory(s, to);
    case Submit(req, gone, pruned, saved) => SubmitHistory(s, req, gone, pruned, saved, names);
    case Bind(id, node, saved) => BindHistory(s, id, node, saved);
    case Cancel(id, saved) => CancelHistory(s, id, saved);
    case Close => CloseHistory(s);
    case Complete(id, failed, stopFailed, saved) => CompleteHistory(s, id, failed, stopFailed, saved);
    case Tick(root, saves, saved) => TickHistory(s, root, saves, saved, names);
    case Crash =>
    case HalfRecover(gone, marked, projected) => HalfRecoverHistory(s, gone, marked, projected);
    case Recover => RecoverHistory(s);
  }

  lemma StepLineage(s: State, a: Action, names: Names)
    requires Inv(s, names) && Enabled(s, a, names)
    ensures Lineage(Step(s, a, names))
  {
    match a
    case Wait(_) =>
    case Submit(req, gone, pruned, saved) => SubmitLineage(s, req, gone, pruned, saved, names);
    case Bind(id, node, saved) => BindLineage(s, id, node, saved);
    case Cancel(id, saved) => CancelLineage(s, id, saved);
    case Close => CloseLineage(s);
    case Complete(id, failed, stopFailed, saved) => CompleteLineage(s, id, failed, stopFailed, saved);
    case Tick(root, saves, saved) => TickLineage(s, root, saves, saved, names);
    case Crash =>
    case HalfRecover(gone, marked, projected) => HalfRecoverLineage(s, gone, marked, projected);
    case Recover => RecoverLineage(s);
  }

  lemma {:induction false} RunKeeps(acts: seq<Action>, end: State, names: Names)
    requires Runs(EMPTY, acts, end, names)
    ensures Inv(end, names)
    decreases |acts|
  {
    if acts == [] {
      NothingLive(map[], names);
    } else {
      var n := |acts| - 1;
      var mid :| Runs(EMPTY, acts[..n], mid, names) && Enabled(mid, acts[n], names) && end == Step(mid, acts[n], names);
      RunKeeps(acts[..n], mid, names);
      StepOps(mid, acts[n], names);
      StepHistory(mid, acts[n], names);
      StepLineage(mid, acts[n], names);
    }
  }

  // ----- limits -----

  /** In every run at most 16 operations execute and at most 4 children of any batch are live. */
  lemma WithinLimits(acts: seq<Action>, end: State, names: Names, root: OpId)
    requires Runs(EMPTY, acts, end, names)
    ensures |Singles(end.ops)| <= 16 && |Children(end.ops, root)| <= 4
  {
    RunKeeps(acts, end, names);
  }

  // ----- exclusion -----

  /** A live operation's work on a node: its own reservation, or a batch member's node. */
  ghost predicate WorksOn(ops: Ops, id: OpId, node: NodeId) {
    id in ops && ops[id].live && (NodeKey(node) in ops[id].keys || (IsChild(ops[id]) && ops[id].record.node == node))
  }

  lemma ChildsRoot(ops: Ops, child: OpId, names: Names) returns (root: OpId, m: Member)
    requires OpsInv(ops, names) && child in ops && IsChild(ops[child])
    ensures ops[child].record.batchId == Some(root) && root in ops && ops[root].live && ops[root].record.members.Some?
    ensures m in ops[root].record.members.value && m.op == child && m.node == ops[child].record.node
    ensures NodeKey(m.node) in ops[root].keys && !IsChild(ops[root])
  {
    root := ops[child].record.batchId.value;
    assert Backed(ops, root, child);
    m :| m in ops[root].record.members.value && m.op == child && m.node == ops[child].record.node && Busy(m.state);
    assert ShapedOp(root, ops[root]);
  }

  lemma SameNodeSameMember(ms: seq<Member>, a: Member, b: Member)
    requires DistinctNodes(ms) && a in ms && b in ms && a.node == b.node
    ensures a == b
  {
    var i :| 0 <= i < |ms| && ms[i] == a;
    var j :| 0 <= j < |ms| && ms[j] == b;
    assert i == j;
  }

  lemma DisjointKeys(ops: Ops, a: OpId, b: OpId, key: Key)
    requires Exclusive(ops) && a in ops && b in ops && ops[a].live && ops[b].live && key in ops[a].keys && key in ops[b].keys
    ensures a == b
  {
  }

  /** No two live operations work on one node, except a batch and its own child. */
  lemma ExclusiveWork(acts: seq<Action>, end: State, names: Names, a: OpId, b: OpId, node: NodeId)
    requires Runs(EMPTY, acts, end, names) && WorksOn(end.ops, a, node) && WorksOn(end.ops, b, node)
    ensures a == b || end.ops[a].record.batchId == Some(b) || end.ops[b].record.batchId == Some(a)
  {
    RunKeeps(acts, end, names);
    var ops := end.ops;
    if IsChild(ops[a]) && IsChild(ops[b]) {
      var ra, ma := ChildsRoot(ops, a, names);
      var rb, mb := ChildsRoot(ops, b, names);
      DisjointKeys(ops, ra, rb, NodeKey(node));
      assert ShapedOp(ra, ops[ra]);
      SameNodeSameMember(ops[ra].record.members.value, ma, mb);
    } else if IsChild(ops[a]) {
      var ra, ma := ChildsRoot(ops, a, names);
      DisjointKeys(ops, ra, b, NodeKey(node));
    } else if IsChild(ops[b]) {
      var rb, mb := ChildsRoot(ops, b, names);
      DisjointKeys(ops, rb, a, NodeKey(node));
    } else {
      DisjointKeys(ops, a, b, NodeKey(node));
    }
  }

  /** While a child is live its batch holds all its nodes and their names: no request for one of either is admissible. */
  lemma NoOutsideAdmission(acts: seq<Action>, end: State, names: Names, child: OpId, gone: set<OpId>, req: Request, m: Member)
    requires Runs(EMPTY, acts, end, names) && child in end.ops && IsChild(end.ops[child])
    requires gone <= ExpiredIds(end.ops, end.clock)
    requires var root := end.ops[child].record.batchId.value;
             root in end.ops && end.ops[root].record.members.Some? && m in end.ops[root].record.members.value
    requires NodeKey(m.node) in req.keys || NameKey(names(m.node)) in req.keys
    ensures !Admissible(end.ops - gone, req)
  {
    RunKeeps(acts, end, names);
    var root, own := ChildsRoot(end.ops, child, names);
    assert ShapedOp(root, end.ops[root]) && Busy(end.ops[root].record.state);
    assert Paired(end.ops[root].keys, names) && root in end.ops - gone;
    var key := if NodeKey(m.node) in req.keys then NodeKey(m.node) else NameKey(names(m.node));
    assert key in end.ops[root].keys * req.keys;
  }

  // ----- repetition -----

  /** In every run, crashes included: one ID never executes twice within the retention, and no member launches twice. */
  lemma NeverTwice(acts: seq<Action>, end: State, names: Names, i: nat, j: nat)
    requires Runs(EMPTY, acts, end, names) && i < j < |end.log| && end.log[i].id == end.log[j].id
    ensures end.log[j].at - end.log[i].at > 604800
    ensures end.log[i].batch.Some? ==> end.log[i].batch != end.log[j].batch
  {
    RunKeeps(acts, end, names);
  }

  // ----- recovery -----

  /** What a restart after any run leaves: nothing live, every member settled, none of the counters open. */
  lemma RecoveryLeavesNothingOpen(acts: seq<Action>, end: State, names: Names, id: OpId)
    requires Runs(EMPTY, acts, end, names) && id in Recovered(end).ops
    ensures var op := Recovered(end).ops[id];
            && !op.live && Settled(op.record.state)
            && (op.record.members.Some? ==> AllSettled(op.record.members.value) && Done(op.record.members.value))
  {
    RunKeeps(acts, end, names);
    RecoveredOk(end.disk, end.clock, id);
    if Recovered(end).ops[id].record.members.Some? {
      RecoverySettles(end.disk, end.clock, id);
      DoneIff(Recovered(end).ops[id].record.members.value);
    }
  }

  lemma OneMember(ms: seq<Member>, child: OpId, node: NodeId) returns (i: nat)
    requires DistinctOps(ms) && Mentions(ms, child, node)
    ensures i < |ms| && ms[i].op == child && ms[i].node == node
    ensures forall j :: 0 <= j < |ms| && ms[j].op == child ==> j == i
  {
    var m :| m in ms && m.op == child && m.node == node;
    i :| 0 <= i < |ms| && ms[i] == m;
  }

  /**
    In every run, a child's receipt is named, with its node, by its batch's receipt if and only
    if the batch's ID has not been executed again since the child was launched.
    */
  lemma ReceiptNamedIff(acts: seq<Action>, end: State, names: Names, child: OpId)
    requires Runs(EMPTY, acts, end, names)
    requires child in end.disk && end.disk[child].batchId.Some? && end.disk[child].batchId.value in end.disk
    ensures var root := end.disk[child].batchId.value;
            NamedBy(end.disk, root, child) <==> Current(end.log, root, child)
  {
    RunKeeps(acts, end, names);
    NamedIffCurrent(end.disk, end.log, child);
  }

  /**
    After any run, and whatever was persisted when it crashed, a restart finds every retained
    child receipt of an interrupted batch from the batch's own receipt: exactly one member names
    it and shows its recorded outcome, interrupted if there was none, and the receipt is kept.
    The root's ID must not have been used for another execution since the child was launched.
    */
  lemma RecoveryKeepsOutcomes(acts: seq<Action>, end: State, names: Names, child: OpId) returns (i: nat)
    requires Runs(EMPTY, acts, end, names) && HasRoot(end.disk, end.log, child) && !Expired(end.disk[child], end.clock)
    requires var root := end.disk[end.disk[child].batchId.value];
             Busy(root.state) || (root.state == Interrupted && !Expired(root, end.clock))
    ensures var root := end.disk[child].batchId.value;
            && root in Recovered(end).ops && Recovered(end).ops[root].record.members.Some?
            && var ms := Recovered(end).ops[root].record.members.value;
            && i < |ms| && ms[i].op == child && (forall j :: 0 <= j < |ms| && ms[j].op == child ==> j == i)
            && ms[i].state == (if Busy(end.disk[child].state) then Interrupted else end.disk[child].state)
            && child in Recovered(end).ops && Recovered(end).ops[child].record == MarkedRecord(end.disk[child])
  {
    RunKeeps(acts, end, names);
    var root := end.disk[child].batchId.value;
    assert NamedBy(end.disk, root, child);
    assert RecordOk(root, end.disk[root], end.clock) && RecordOk(child, end.disk[child], end.clock);
    i := OneMember(end.disk[root].members.value, child, end.disk[child].node);
    RecoveredShows(end.disk, end.clock, root, i);
  }

  /** The member a child receipt belongs to shows what the receipt says. */
  lemma RecoveredShows(disk: Disk, now: Time, root: OpId, i: nat)
    requires root in disk && disk[root].members.Some? && i < |disk[root].members.value|
    requires Busy(disk[root].state) || (disk[root].state == Interrupted && !Expired(disk[root], now))
    requires var m := disk[root].members.value[i];
             && m.op in disk && disk[m.op].batchId == Some(root) && disk[m.op].node == m.node
             && disk[m.op].members.None? && !Expired(disk[m.op], now)
    ensures var was, r := disk[root].members.value, RecoveredDisk(disk, now);
            && root in r && r[root].members.Some? && SameTargets(was, r[root].members.value)
            && r[root].members.value[i].state == MarkedRecord(disk[was[i].op]).state
            && was[i].op in r && r[was[i].op] == MarkedRecord(disk[was[i].op])
  {
    var m := disk[root].members.value[i];
    var marked := Marked(disk, now);
    assert root in marked && m.op in marked && marked[m.op] == MarkedRecord(disk[m.op]);
  }
}
