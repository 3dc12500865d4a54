/**
  Which receipts belong to which batch, across crashes. The root receipt is the admission
  boundary: a child's ID is named there before any child receipt can exist, so every child
  receipt can be found again from the root, unless the root's ID has been used again since.
  */
module NodeLineage {
  import opened Wrappers
  import opened NodeBatch
  import opened NodeOperations
  import opened NodeSafety
  import opened NodeHistory

  /** `child` was launched for `root`, and `root` has not been executed again since. */
  ghost predicate Current(log: seq<Exec>, root: OpId, child: OpId) {
    exists j :: 0 <= j < |log| && log[j].id == child && log[j].batch == Some(root) && NotSince(log, j, root)
  }

  ghost predicate NotSince(log: seq<Exec>, j: int, id: OpId) {
    forall i :: 0 <= i < |log| && j < i ==> log[i].id != id
  }

  ghost predicate Mentions(ms: seq<Member>, child: OpId, node: NodeId) {
    exists m :: m in ms && m.op == child && m.node == node
  }

  ghost predicate NamedBy(disk: Disk, root: OpId, child: OpId)
    requires root in disk && child in disk
  {
    disk[root].members.Some? && Mentions(disk[root].members.value, child, disk[child].node)
  }

  /** A child receipt whose root receipt is the one it was launched from. */
  ghost predicate HasRoot(disk: Disk, log: seq<Exec>, c: OpId) {
    c in disk && disk[c].batchId.Some? && disk[c].batchId.value in disk && Current(log, disk[c].batchId.value, c)
  }

  /** Every such receipt is named, with its node, by its root's receipt. */
  ghost predicate Named(disk: Disk, log: seq<Exec>) {
    forall c: OpId :: HasRoot(disk, log, c) ==> NamedBy(disk, disk[c].batchId.value, c)
  }

  ghost predicate SameBatch(a: Option<seq<Member>>, b: Option<seq<Member>>) {
    a.Some? == b.Some? && (a.Some? ==> SameTargets(a.value, b.value))
  }

  /** The same batch and the same parent, on the same node if it is a child. */
  ghost predicate Kin(a: Record, b: Record) {
    a.batchId == b.batchId && (a.batchId.Some? ==> a.node == b.node) && SameBatch(a.members, b.members)
  }

  ghost predicate Tied(ops: Ops, disk: Disk) {
    forall id :: id in ops && id in disk ==> Kin(disk[id], ops[id].record)
  }

  /** A batch's members are executed after the batch, if at all. */
  ghost predicate MembersLater(ms: seq<Member>, root: OpId, log: seq<Exec>) {
    forall m, i, j :: m in ms && 0 <= i < |log| && 0 <= j < |log| && log[i].id == m.op && log[j].id == root ==> j < i
  }

  ghost predicate Ordered(disk: Disk, log: seq<Exec>) {
    forall r :: r in disk && disk[r].members.Some? ==> MembersLater(disk[r].members.value, r, log)
  }

  ghost predicate LaunchedFor(log: seq<Exec>, root: OpId, child: OpId) {
    exists j :: 0 <= j < |log| && log[j].id == child && log[j].batch == Some(root)
  }

  ghost predicate Recorded(disk: Disk, log: seq<Exec>) {
    forall c :: c in disk && disk[c].batchId.Some? ==> LaunchedFor(log, disk[c].batchId.value, c)
  }

  ghost predicate Known(disk: Disk, log: seq<Exec>) {
    Named(disk, log) && Ordered(disk, log) && Recorded(disk, log)
  }

  ghost predicate Lineage(s: State) {
    Known(s.disk, s.log) && Tied(s.ops, s.disk)
  }

  /** A receipt is found from its batch's receipt exactly when the batch's ID has not been executed since its launch. */
  lemma NamedIffCurrent(disk: Disk, log: seq<Exec>, child: OpId)
    requires Known(disk, log) && child in disk && disk[child].batchId.Some? && disk[child].batchId.value in disk
    ensures NamedBy(disk, disk[child].batchId.value, child) <==> Current(log, disk[child].batchId.value, child)
  {
    var root := disk[child].batchId.value;
    if NamedBy(disk, root, child) {
      var m :| m in disk[root].members.value && m.op == child && m.node == disk[child].node;
      assert LaunchedFor(log, root, child);
      var j :| 0 <= j < |log| && log[j].id == child && log[j].batch == Some(root);
      assert MembersLater(disk[root].members.value, root, log);
      assert NotSince(log, j, root);
    }
    assert Current(log, root, child) ==> HasRoot(disk, log, child);
  }

  // ----- receipts rewritten in place -----

  lemma KinTransitive(a: Record, b: Record, c: Record)
    requires Kin(a, b) && Kin(b, c)
    ensures Kin(a, c)
  {
  }

  lemma NamesStays(a: seq<Member>, b: seq<Member>, child: OpId, node: NodeId)
    requires SameTargets(a, b) && Mentions(a, child, node)
    ensures Mentions(b, child, node)
  {
    var m :| m in a && m.op == child && m.node == node;
    var i :| 0 <= i < |a| && a[i] == m;
    assert b[i] in b;
  }

  lemma NamedStays(disk: Disk, after: Disk, log: seq<Exec>)
    requires Named(disk, log)
    requires forall id :: id in after ==> id in disk && Kin(disk[id], after[id])
    ensures Named(after, log)
  {
    forall c: OpId | HasRoot(after, log, c) ensures NamedBy(after, after[c].batchId.value, c) {
      var root := after[c].batchId.value;
      assert Kin(disk[c], after[c]) && Kin(disk[root], after[root]);
      assert HasRoot(disk, log, c);
      NamesStays(disk[root].members.value, after[root].members.value, c, disk[c].node);
    }
  }

  lemma LaterStays(a: seq<Member>, b: seq<Member>, root: OpId, log: seq<Exec>)
    requires SameTargets(a, b) && MembersLater(a, root, log)
    ensures MembersLater(b, root, log)
  {
    forall m, i, j | m in b && 0 <= i < |log| && 0 <= j < |log| && log[i].id == m.op && log[j].id == root ensures j < i {
      var k :| 0 <= k < |b| && b[k] == m;
      assert a[k] in a && a[k].op == m.op;
    }
  }

  lemma KnownStays(disk: Disk, after: Disk, log: seq<Exec>)
    requires Known(disk, log)
    requires forall id :: id in after ==> id in disk && Kin(disk[id], after[id])
    ensures Known(after, log)
  {
    NamedStays(disk, after, log);
    forall r | r in after && after[r].members.Some? ensures MembersLater(after[r].members.value, r, log) {
      assert Kin(disk[r], after[r]);
      LaterStays(disk[r].members.value, after[r].members.value, r, log);
    }
    forall c | c in after && after[c].batchId.Some? ensures LaunchedFor(log, after[c].batchId.value, c) {
      assert Kin(disk[c], after[c]);
    }
  }

  lemma RewriteTied(ops: Ops, disk: Disk, id: OpId, op: Op, record: Record, written: bool)
    requires Tied(ops, disk) && id in ops && id in disk && Kin(disk[id], op.record) && Kin(disk[id], record) && Kin(record, op.record)
    ensures Tied(ops[id := op], if written then disk[id := record] else disk)
  {
  }

  lemma KinRefl(r: Record)
    ensures Kin(r, r)
  {
  }

  /** One operation's record changes, and its receipt with it or not. */
  lemma RewriteLineage(s: State, id: OpId, op: Op, record: Record, written: bool)
    requires Lineage(s) && id in s.ops && id in s.disk
    requires Kin(s.ops[id].record, op.record) && Kin(s.ops[id].record, record) && Kin(record, op.record)
    ensures Lineage(s.(ops := s.ops[id := op], disk := if written then s.disk[id := record] else s.disk))
  {
    var disk := if written then s.disk[id := record] else s.disk;
    assert Kin(s.disk[id], s.ops[id].record);
    KinTransitive(s.disk[id], s.ops[id].record, op.record);
    KinTransitive(s.disk[id], s.ops[id].record, record);
    RewriteTied(s.ops, s.disk, id, op, record, written);
    forall i | i in disk ensures i in s.disk && Kin(s.disk[i], disk[i]) {
      KinRefl(s.disk[i]);
    }
    KnownStays(s.disk, disk, s.log);
  }

  // ----- the log grows -----

  lemma CurrentBefore(log: seq<Exec>, e: Exec, root: OpId, child: OpId)
    requires Current(log + [e], root, child) && !(e.id == child && e.batch == Some(root))
    ensures Current(log, root, child) && e.id != root
  {
    var more := log + [e];
    var j :| 0 <= j < |more| && more[j].id == child && more[j].batch == Some(root) && NotSince(more, j, root);
    assert more[|log|] == e && j < |log|;
    assert forall i :: 0 <= i < |log| ==> more[i] == log[i];
    assert NotSince(log, j, root);
  }

  lemma AdmitNamed(disk: Disk, log: seq<Exec>, id: OpId, record: Record, e: Exec)
    requires Named(disk, log) && record.batchId.None? && e.id == id && e.batch.None?
    ensures Named(disk[id := record], log + [e])
  {
    var more := disk[id := record];
    forall c: OpId | HasRoot(more, log + [e], c) ensures NamedBy(more, more[c].batchId.value, c) {
      CurrentBefore(log, e, more[c].batchId.value, c);
      assert HasRoot(disk, log, c);
    }
  }

  lemma RecordedGrows(disk: Disk, log: seq<Exec>, id: OpId, record: Record, e: Exec)
    requires Recorded(disk, log) && e.id == id && e.batch == record.batchId
    ensures Recorded(disk[id := record], log + [e])
  {
    var more, after := log + [e], disk[id := record];
    assert more[|log|] == e;
    forall c | c in after && after[c].batchId.Some? ensures LaunchedFor(more, after[c].batchId.value, c) {
      if c != id {
        assert LaunchedFor(log, disk[c].batchId.value, c);
        var j :| 0 <= j < |log| && log[j].id == c && log[j].batch == Some(disk[c].batchId.value);
        assert more[j] == log[j];
      }
    }
  }

  lemma OrderedGrows(disk: Disk, log: seq<Exec>, id: OpId, record: Record, e: Exec)
    requires Ordered(disk, log) && e.id == id
    requires record.members.Some? ==> Unseen(record.members.value, id, log)
    ensures Ordered(disk[id := record], log + [e])
  {
    var more := disk[id := record];
    forall r | r in more && more[r].members.Some? ensures MembersLater(more[r].members.value, r, log + [e]) {
      if r == id {
        UnseenLater(record.members.value, id, log, e);
      } else {
        LaterGrows(disk[r].members.value, r, log, e);
      }
    }
  }

  /** Newly generated member IDs. */
  ghost predicate Unseen(ms: seq<Member>, id: OpId, log: seq<Exec>) {
    forall m :: m in ms ==> m.op != id && forall i :: 0 <= i < |log| ==> log[i].id != m.op
  }

  lemma UnseenLater(ms: seq<Member>, id: OpId, log: seq<Exec>, e: Exec)
    requires Unseen(ms, id, log) && e.id == id
    ensures MembersLater(ms, id, log + [e])
  {
    var more := log + [e];
    forall m, i | m in ms && 0 <= i < |more| ensures more[i].id != m.op {
      if i < |log| {
        assert more[i] == log[i];
      }
    }
  }

  lemma LaterGrows(ms: seq<Member>, root: OpId, log: seq<Exec>, e: Exec)
    requires MembersLater(ms, root, log) && e.id != root
    ensures MembersLater(ms, root, log + [e])
  {
    var more := log + [e];
    forall m, i, j | m in ms && 0 <= i < |more| && 0 <= j < |more| && more[i].id == m.op && more[j].id == root ensures j < i {
      assert j < |log| && more[j] == log[j];
      if i < |log| {
        assert more[i] == log[i];
      }
    }
  }

  /** A launched child is named by the root receipt that is already there. */
  lemma LaunchNamed(disk: Disk, log: seq<Exec>, root: OpId, m: Member, now: Time)
    requires Named(disk, log) && root in disk && m.op != root
    requires disk[root].members.Some? && Mentions(disk[root].members.value, m.op, m.node)
    ensures Named(disk[m.op := ChildReceipt(m, root, now)], log + [Exec(m.op, now, Some(root))])
  {
    var e := Exec(m.op, now, Some(root));
    var more := disk[m.op := ChildReceipt(m, root, now)];
    forall c: OpId | HasRoot(more, log + [e], c) ensures NamedBy(more, more[c].batchId.value, c) {
      if c == m.op {
        assert more[root] == disk[root];
      } else {
        CurrentBefore(log, e, more[c].batchId.value, c);
        assert HasRoot(disk, log, c);
      }
    }
  }

  // ----- the steps -----

  lemma PruneLineage(s: State, gone: set<OpId>)
    requires Lineage(s)
    ensures Lineage(Pruned(s, gone))
  {
    forall id | id in s.disk - gone ensures id in s.disk && Kin(s.disk[id], (s.disk - gone)[id]) {
      KinRefl(s.disk[id]);
    }
    KnownStays(s.disk, s.disk - gone, s.log);
  }

  lemma AdmitLineage(s: State, req: Request)
    requires Lineage(s) && (req.members.Some? ==> Unseen(req.members.value, req.id, s.log))
    ensures Lineage(Admitted(s, req))
  {
    var record, e := Receipt(req, s.clock), Exec(req.id, s.clock, None);
    KinRefl(record);
    AdmitNamed(s.disk, s.log, req.id, record, e);
    OrderedGrows(s.disk, s.log, req.id, record, e);
    RecordedGrows(s.disk, s.log, req.id, record, e);
  }

  lemma SubmitLineage(s: State, req: Request, gone: set<OpId>, pruned: bool, saved: bool, names: Names)
    requires Lineage(s) && WellFormed(s, req, names)
    ensures Lineage(Submitted(s, req, gone, pruned, saved))
  {
    PruneLineage(s, gone);
    AdmitLineage(Pruned(s, gone), req);
  }

  lemma BindLineage(s: State, id: OpId, node: NodeId, saved: bool)
    requires Lineage(s) && id in s.ops && id in s.disk && s.ops[id].record.batchId.None?
    ensures Lineage(Bound(s, id, node, saved))
  {
    var op := Bound(s, id, node, saved).ops[id];
    KinRefl(op.record);
    KinRefl(s.ops[id].record);
    RewriteLineage(s, id, op, op.record, saved);
  }

  lemma CompleteLineage(s: State, id: OpId, failed: bool, stopFailed: bool, saved: bool)
    requires Lineage(s) && id in s.ops && id in s.disk
    ensures Lineage(Completed(s, id, failed, stopFailed, saved))
  {
    KinRefl(s.ops[id].record);
    RewriteLineage(s, id, Completed(s, id, failed, stopFailed, saved).ops[id], FinalRecord(s.ops[id], failed, stopFailed, s.clock), saved);
  }

  lemma SimilarTied(ops: Ops, more: Ops, disk: Disk)
    requires Tied(ops, disk) && Similar(ops, more)
    ensures Tied(more, disk)
  {
    forall id | id in more && id in disk ensures Kin(disk[id], more[id].record) {
      assert SimilarOp(ops[id], more[id]) && Kin(disk[id], ops[id].record);
    }
  }

  lemma CancelLineage(s: State, id: OpId, saved: bool)
    requires Lineage(s) && id in s.ops && id in s.disk && Lively(s.ops)
    ensures Lineage(CancelRequested(s, id, saved))
  {
    if s.ops[id].live && saved {
      CancelSimilar(s.ops, id);
      var t := s.(ops := CanceledOps(s.ops, id));
      SimilarTied(s.ops, t.ops, s.disk);
      KinRefl(t.ops[id].record);
      RewriteLineage(t, id, t.ops[id], CancelState(s.ops[id]).record, true);
      assert t.ops[id := t.ops[id]] == t.ops;
    }
  }

  lemma CloseLineage(s: State)
    requires Lineage(s) && Lively(s.ops)
    ensures Lineage(ShutDown(s))
  {
    CloseSimilar(s.ops);
    SimilarTied(s.ops, ClosedOps(s.ops), s.disk);
  }

  // ----- a batch tick -----

  /** What the launching pass keeps: the root receipt still names every member of the pass. */
  ghost predicate LaunchLineage(x: Sched, root: OpId) {
    && Known(x.disk, x.log) && Tied(x.ops, x.disk)
    && root in x.disk && x.disk[root].members.Some? && SameTargets(x.disk[root].members.value, x.ms)
    && forall m :: m in x.ms ==> m.op != root
  }

  lemma TargetsName(a: seq<Member>, b: seq<Member>, i: nat)
    requires SameTargets(a, b) && i < |b|
    ensures Mentions(a, b[i].op, b[i].node)
  {
    assert a[i] in a;
  }

  lemma SetStateTargets(ms: seq<Member>, us: seq<Member>, i: nat, s: Status)
    requires SameTargets(ms, us) && i < |us|
    ensures SameTargets(ms, us[i := us[i].(state := s)])
    ensures forall m :: m in us[i := us[i].(state := s)] ==> exists n :: n in us && n.op == m.op
  {
    var r := us[i := us[i].(state := s)];
    forall m | m in r ensures exists n :: n in us && n.op == m.op {
      var j :| 0 <= j < |r| && r[j] == m;
      assert us[j] in us;
    }
  }

  lemma StartTied(ops: Ops, disk: Disk, m: Member, root: OpId, now: Time)
    requires Tied(ops, disk)
    ensures Tied(ops[m.op := Child(m, root, now)], disk[m.op := ChildReceipt(m, root, now)])
  {
    KinRefl(ChildReceipt(m, root, now));
  }

  lemma LaunchLineageStep(x: Sched, y: Sched, root: OpId, n: nat, now: Time, saved: bool)
    requires LaunchLineage(x, root) && n < |x.ms| && y == LaunchAt(x, n, root, now, saved)
    ensures LaunchLineage(y, root)
  {
    var m := x.ms[n];
    if Launches(x, n) {
      assert m in x.ms;
      SetStateTargets(x.disk[root].members.value, x.ms, n, if saved then Running else Failed);
      if saved {
        TargetsName(x.disk[root].members.value, x.ms, n);
        LaunchNamed(x.disk, x.log, root, m, now);
        OrderedGrows(x.disk, x.log, m.op, ChildReceipt(m, root, now), Exec(m.op, now, Some(root)));
        RecordedGrows(x.disk, x.log, m.op, ChildReceipt(m, root, now), Exec(m.op, now, Some(root)));
        StartTied(x.ops, x.disk, m, root, now);
      }
    }
  }

  lemma {:induction false} LaunchLineagePass(x: Sched, root: OpId, now: Time, saves: seq<bool>, n: nat)
    requires LaunchLineage(x, root) && n <= |x.ms| && |saves| == |x.ms|
    ensures LaunchLineage(LaunchTo(x, n, root, now, saves), root)
  {
    if n > 0 {
      LaunchLineagePass(x, root, now, saves, n - 1);
      LaunchLineageStep(LaunchTo(x, n - 1, root, now, saves), LaunchTo(x, n, root, now, saves), root, n - 1, now, saves[n - 1]);
    }
  }

  lemma SweepLineage(s: State, root: OpId, saves: seq<bool>)
    requires Lineage(s) && BatchAt(s, root, saves) && root in s.disk && ShapedOp(root, s.ops[root])
    ensures LaunchLineage(Swept(s, root, saves), root)
  {
    var op := s.ops[root];
    var was := op.record.members.value;
    var ms := SyncedMembers(was, s.ops, op.cause);
    assert Kin(s.disk[root], op.record);
    assert SameTargets(was, ms);
    SameTargetsShape(was, ms);
    var x := Started(s, root, ms);
    assert LaunchLineage(x, root);
    if op.cause == Going {
      LaunchLineagePass(x, root, s.clock, saves, |ms|);
    }
  }

  lemma ConcludedLineage(s: State, root: OpId, y: Sched, saved: bool)
    requires root in s.ops && root in y.ops && y.ops[root] == s.ops[root] && s.ops[root].record.members.Some?
    requires LaunchLineage(y, root)
    ensures Lineage(Concluded(s, root, y, saved))
  {
    var op := s.ops[root];
    var r := Concluded(s, root, y, saved);
    var record := BatchRecord(op, y.ms, s.clock);
    var changed := op.record.members != Some(y.ms) || Done(y.ms);
    assert Kin(y.disk[root], op.record);
    KinRefl(y.disk[root]);
    assert Kin(y.disk[root], record) && Kin(y.disk[root], r.ops[root].record) && Kin(record, r.ops[root].record);
    RewriteTied(y.ops, y.disk, root, r.ops[root], record, changed && saved);
    forall i | i in r.disk ensures i in y.disk && Kin(y.disk[i], r.disk[i]) {
      KinRefl(y.disk[i]);
    }
    KnownStays(y.disk, r.disk, y.log);
  }

  lemma TickLineage(s: State, root: OpId, saves: seq<bool>, saved: bool, names: Names)
    requires Lineage(s) && BatchAt(s, root, saves) && root in s.disk && OpsInv(s.ops, names)
    ensures Lineage(Ticked(s, root, saves, saved))
  {
    assert ShapedOp(root, s.ops[root]);
    SweepLineage(s, root, saves);
    SweepKeeps(s, root, saves, names);
    ConcludedLineage(s, root, Swept(s, root, saves), saved);
  }

  // ----- recovery -----

  lemma MarkedKin(disk: Disk, now: Time, id: OpId)
    requires id in RecoveredDisk(disk, now)
    ensures id in disk && Kin(disk[id], RecoveredDisk(disk, now)[id]) && Kin(disk[id], MarkedRecord(disk[id]))
  {
  }

  lemma RecoverLineage(s: State)
    requires Lineage(s)
    ensures Lineage(Recovered(s))
  {
    var r := Recovered(s);
    forall id | id in r.disk ensures id in s.disk && Kin(s.disk[id], r.disk[id]) {
      MarkedKin(s.disk, s.clock, id);
    }
    KnownStays(s.disk, r.disk, s.log);
    forall id | id in r.ops && id in r.disk ensures Kin(r.disk[id], r.ops[id].record) {
      KinRefl(r.disk[id]);
    }
  }

  lemma HalfRecoverLineage(s: State, gone: set<OpId>, marked: set<OpId>, projected: set<OpId>)
    requires Lineage(s) && s.ops == map[]
    ensures Lineage(HalfRecovered(s, gone, marked, projected))
  {
    var r := HalfRecovered(s, gone, marked, projected);
    forall id | id in r.disk ensures id in s.disk && Kin(s.disk[id], r.disk[id]) {
      KinRefl(s.disk[id]);
      if id in RecoveredDisk(s.disk, s.clock) {
        MarkedKin(s.disk, s.clock, id);
      }
    }
    KnownStays(s.disk, r.disk, s.log);
  }
}
