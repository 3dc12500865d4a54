/**
  What every run of the node operation manager keeps across crashes: the receipts on
  disk, and the executions that were started so far.
  */
module NodeHistory {
  import opened Wrappers
  import opened NodeBatch
  import opened NodeOperations
  import opened NodeSafety

  // ----- receipts -----

  ghost predicate AllSettled(ms: seq<Member>) {
    forall m :: m in ms ==> Settled(m.state)
  }

  /** A receipt: well-formed, and a batch that ended of itself has no member left open. */
  ghost predicate RecordOk(id: OpId, r: Record, clock: Time) {
    && r.state != Queued
    && r.created <= clock && (r.finished.Some? ==> r.created <= r.finished.value)
    && (r.members.Some? ==>
          && r.batchId.None? && DistinctNodes(r.members.value) && DistinctOps(r.members.value)
          && (forall m :: m in r.members.value ==> m.op != id)
          && (Busy(r.state) || r.state == Interrupted || AllSettled(r.members.value)))
  }

  ghost predicate DiskOk(disk: Disk, clock: Time) {
    forall id :: id in disk ==> RecordOk(id, disk[id], clock)
  }

  /** Every operation in memory has a receipt of the same age, and the other way round. */
  ghost predicate Linked(ops: Ops, disk: Disk, clock: Time) {
    && ops.Keys == disk.Keys
    && forall id :: id in ops ==> ops[id].record.created == disk[id].created && RecordOk(id, ops[id].record, clock)
  }

  // ----- executions -----

  /** An execution younger than the retention is still on record. */
  ghost predicate Remembered(e: Exec, disk: Disk, clock: Time) {
    e.at <= clock && (clock - e.at > RETENTION || (e.id in disk && e.at <= disk[e.id].created))
  }

  ghost predicate LogKept(log: seq<Exec>, disk: Disk, clock: Time) {
    forall e :: e in log ==> Remembered(e, disk, clock)
  }

  /** The same ID is never executed twice within the retention. */
  ghost predicate Spaced(log: seq<Exec>) {
    forall i, j :: 0 <= i < j < |log| && log[i].id == log[j].id ==> log[j].at - log[i].at > RETENTION
  }

  /** A batch never launches the same member twice. */
  ghost predicate LaunchedOnce(log: seq<Exec>) {
    forall i, j :: 0 <= i < j < |log| && log[i].batch.Some? ==> !(log[i].id == log[j].id && log[i].batch == log[j].batch)
  }

  ghost predicate Unlaunched(ms: seq<Member>, root: OpId, log: seq<Exec>) {
    forall m, e :: m in ms && m.state == Queued && e in log ==> !(e.id == m.op && e.batch == Some(root))
  }

  ghost predicate QueuedUnlaunched(ops: Ops, log: seq<Exec>) {
    forall r :: r in ops && ops[r].record.members.Some? ==> Unlaunched(ops[r].record.members.value, r, log)
  }

  ghost predicate History(s: State) {
    && DiskOk(s.disk, s.clock)
    && (if s.up then Linked(s.ops, s.disk, s.clock) else s.ops == map[])
    && LogKept(s.log, s.disk, s.clock) && Spaced(s.log) && LaunchedOnce(s.log) && QueuedUnlaunched(s.ops, s.log)
  }

  // ----- one more execution -----

  lemma LogGrows(log: seq<Exec>, disk: Disk, clock: Time, e: Exec, record: Record)
    requires LogKept(log, disk, clock) && Spaced(log) && e.at == clock && e.id !in disk && record.created == clock
    ensures LogKept(log + [e], disk[e.id := record], clock) && Spaced(log + [e])
  {
    var more := log + [e];
    forall i | 0 <= i < |log| && log[i].id == e.id ensures e.at - log[i].at > RETENTION {
      assert log[i] in log;
      assert Remembered(log[i], disk, clock);
    }
    forall d | d in more ensures Remembered(d, disk[e.id := record], clock) {
      if d in log {
        assert Remembered(d, disk, clock);
      }
    }
  }

  lemma LaunchGrows(log: seq<Exec>, e: Exec)
    requires LaunchedOnce(log) && (e.batch.Some? ==> forall d :: d in log ==> !(d.id == e.id && d.batch == e.batch))
    ensures LaunchedOnce(log + [e])
  {
    assert forall i :: 0 <= i < |log| ==> log[i] in log;
  }

  /** Receipts rewritten in place, at the same age, forget nothing. */
  lemma LogStays(log: seq<Exec>, disk: Disk, more: Disk, clock: Time)
    requires LogKept(log, disk, clock)
    requires forall id :: id in disk ==> id in more && more[id].created == disk[id].created
    ensures LogKept(log, more, clock)
  {
    forall e | e in log ensures Remembered(e, more, clock) {
      assert Remembered(e, disk, clock);
    }
  }

  /** Removing expired receipts forgets only executions older than the retention. */
  lemma LogShrinks(log: seq<Exec>, disk: Disk, less: Disk, clock: Time)
    requires LogKept(log, disk, clock)
    requires forall id :: id in disk && id in less ==> less[id].created == disk[id].created
    requires forall id :: id in disk && id !in less ==> clock - disk[id].created > RETENTION
    ensures LogKept(log, less, clock)
  {
    forall e | e in log ensures Remembered(e, less, clock) {
      assert Remembered(e, disk, clock);
    }
  }

  // ----- submit -----

  lemma PruneHistory(s: State, gone: set<OpId>)
    requires History(s) && s.up && gone <= ExpiredIds(s.ops, s.clock)
    ensures History(Pruned(s, gone))
  {
    LogShrinks(s.log, s.disk, s.disk - gone, s.clock);
  }

  lemma AdmitQueued(ops: Ops, log: seq<Exec>, id: OpId, op: Op, e: Exec)
    requires QueuedUnlaunched(ops, log) && e.batch.None?
    requires op.record.members.Some? ==> forall m, d :: m in op.record.members.value && d in log ==> d.id != m.op
    ensures QueuedUnlaunched(ops[id := op], log + [e])
  {
    var more := ops[id := op];
    forall r | r in more && more[r].record.members.Some? ensures Unlaunched(more[r].record.members.value, r, log + [e]) {
      if r != id {
        assert Unlaunched(ops[r].record.members.value, r, log);
      }
    }
  }

  lemma AdmitHistory(s: State, req: Request, names: Names)
    requires History(s) && s.up && req.id !in s.ops && WellFormed(s, req, names)
    ensures History(Admitted(s, req))
  {
    var e, record := Exec(req.id, s.clock, None), Receipt(req, s.clock);
    LogGrows(s.log, s.disk, s.clock, e, record);
    LaunchGrows(s.log, e);
    AdmitQueued(s.ops, s.log, req.id, Op(record, req.keys, true, Going), e);
    assert RecordOk(req.id, record, s.clock);
  }

  lemma SubmitHistory(s: State, req: Request, gone: set<OpId>, pruned: bool, saved: bool, names: Names)
    requires History(s) && Enabled(s, Submit(req, gone, pruned, saved), names)
    ensures History(Submitted(s, req, gone, pruned, saved))
  {
    if s.up && !s.closed && !Repeated(s.ops, req.id, s.clock) {
      PruneHistory(s, gone);
      if pruned && Admissible(s.ops - gone, req) && saved {
        AdmitHistory(Pruned(s, gone), req, names);
      }
    }
  }

  // ----- steps that rewrite one receipt -----

  lemma RewriteHistory(s: State, ops: Ops, disk: Disk)
    requires History(s) && s.up && DiskOk(disk, s.clock) && ops.Keys == s.ops.Keys && disk.Keys == s.disk.Keys
    requires forall id :: id in disk ==> disk[id].created == s.disk[id].created
    requires forall id :: id in ops ==>
               ops[id].record.created == s.ops[id].record.created && RecordOk(id, ops[id].record, s.clock)
               && ops[id].record.members == s.ops[id].record.members
    ensures History(s.(ops := ops, disk := disk))
  {
    LogStays(s.log, s.disk, disk, s.clock);
    forall r | r in ops && ops[r].record.members.Some? ensures Unlaunched(ops[r].record.members.value, r, s.log) {
      assert Unlaunched(s.ops[r].record.members.value, r, s.log);
    }
  }

  lemma BindHistory(s: State, id: OpId, node: NodeId, saved: bool)
    requires History(s) && s.up && id in s.ops && s.ops[id].record.members.None?
    ensures History(Bound(s, id, node, saved))
  {
    var r := Bound(s, id, node, saved);
    assert RecordOk(id, s.ops[id].record, s.clock);
    RewriteHistory(s, r.ops, r.disk);
  }

  lemma CanceledRecords(ops: Ops, id: OpId, disk: Disk, clock: Time)
    requires id in ops && Linked(ops, disk, clock)
    ensures var more := CanceledOps(ops, id);
            && more.Keys == ops.Keys && RecordOk(id, CancelState(ops[id]).record, clock)
            && forall i :: i in more ==>
                 more[i].record.created == ops[i].record.created && RecordOk(i, more[i].record, clock)
                 && more[i].record.members == ops[i].record.members
  {
    var more := CanceledOps(ops, id);
    assert RecordOk(id, ops[id].record, clock);
    forall i | i in more ensures RecordOk(i, more[i].record, clock) {
      assert RecordOk(i, ops[i].record, clock);
    }
  }

  lemma CancelHistory(s: State, id: OpId, saved: bool)
    requires History(s) && s.up && id in s.ops
    ensures History(CancelRequested(s, id, saved))
  {
    if s.ops[id].live && saved {
      CanceledRecords(s.ops, id, s.disk, s.clock);
      RewriteHistory(s, CanceledOps(s.ops, id), s.disk[id := CancelState(s.ops[id]).record]);
    }
  }

  lemma CompleteHistory(s: State, id: OpId, failed: bool, stopFailed: bool, saved: bool)
    requires History(s) && s.up && id in s.ops && s.ops[id].record.members.None?
    ensures History(Completed(s, id, failed, stopFailed, saved))
  {
    var r := Completed(s, id, failed, stopFailed, saved);
    assert RecordOk(id, s.ops[id].record, s.clock);
    RewriteHistory(s, r.ops, r.disk);
  }

  lemma CloseHistory(s: State)
    requires History(s)
    ensures History(ShutDown(s))
  {
    var ops := ClosedOps(s.ops);
    forall r | r in ops && ops[r].record.members.Some? ensures Unlaunched(ops[r].record.members.value, r, s.log) {
      assert Unlaunched(s.ops[r].record.members.value, r, s.log);
    }
  }

  // ----- a batch tick -----

  /** The log grew by launches of this batch only. */
  ghost predicate Grown(log: seq<Exec>, more: seq<Exec>, root: OpId) {
    forall e :: e in more ==> e in log || e.batch == Some(root)
  }

  /** What the launching pass keeps of the receipts and the log. */
  ghost predicate LaunchHistory(log: seq<Exec>, x: Sched, root: OpId, clock: Time, n: nat) {
    && DiskOk(x.disk, clock) && Linked(x.ops, x.disk, clock)
    && LogKept(x.log, x.disk, clock) && Spaced(x.log) && LaunchedOnce(x.log) && Grown(log, x.log, root)
    && Unlaunched(x.ms, root, x.log) && Waiting(x.ops, x.ms, n)
  }

  lemma UnlaunchedStep(ms: seq<Member>, n: nat, s: Status, root: OpId, log: seq<Exec>, e: Exec)
    requires n < |ms| && DistinctOps(ms) && Unlaunched(ms, root, log) && e.id == ms[n].op && s != Queued
    ensures Unlaunched(ms[n := ms[n].(state := s)], root, log + [e])
    ensures Unlaunched(ms[n := ms[n].(state := s)], root, log)
  {
    var us := ms[n := ms[n].(state := s)];
    forall m | m in us && m.state == Queued ensures m in ms && m.op != e.id {
      var j :| 0 <= j < |us| && us[j] == m;
      assert ms[j] == m;
    }
  }

  lemma LaunchHistoryStep(log: seq<Exec>, x: Sched, root: OpId, clock: Time, n: nat, saved: bool)
    requires LaunchHistory(log, x, root, clock, n) && n < |x.ms| && DistinctOps(x.ms)
    ensures LaunchHistory(log, LaunchAt(x, n, root, clock, saved), root, clock, n + 1)
  {
    var m := x.ms[n];
    var e, record := Exec(m.op, clock, Some(root)), ChildReceipt(m, root, clock);
    if Launches(x, n) {
      assert m in x.ms && m.op !in x.ops;
      UnlaunchedStep(x.ms, n, if saved then Running else Failed, root, x.log, e);
      if saved {
        LogGrows(x.log, x.disk, clock, e, record);
        LaunchGrows(x.log, e);
        StartWaits(x.ops, x.ms, root, clock, n);
        assert RecordOk(m.op, record, clock);
      }
    }
  }

  lemma LaunchHistoryTo(log: seq<Exec>, x: Sched, y: Sched, root: OpId, clock: Time, n: nat, saved: bool)
    requires 0 < n <= |x.ms| && LaunchHistory(log, x, root, clock, n - 1) && DistinctOps(x.ms)
    requires y == LaunchAt(x, n - 1, root, clock, saved)
    ensures LaunchHistory(log, y, root, clock, n)
  {
    LaunchHistoryStep(log, x, root, clock, n - 1, saved);
  }

  lemma LaunchTargets(x: Sched, n: nat, root: OpId, now: Time, saves: seq<bool>)
    requires n <= |x.ms| && n <= |saves|
    ensures SameTargets(x.ms, LaunchTo(x, n, root, now, saves).ms)
  {
  }

  lemma LaunchDistinct(x: Sched, n: nat, root: OpId, now: Time, saves: seq<bool>)
    requires n <= |x.ms| && n <= |saves| && DistinctOps(x.ms)
    ensures DistinctOps(LaunchTo(x, n, root, now, saves).ms)
  {
    LaunchTargets(x, n, root, now, saves);
    SameTargetsShape(x.ms, LaunchTo(x, n, root, now, saves).ms);
  }

  lemma {:induction false} LaunchHistoryPass(log: seq<Exec>, x: Sched, root: OpId, clock: Time, saves: seq<bool>, n: nat)
    requires LaunchHistory(log, x, root, clock, 0) && n <= |x.ms| && |saves| == |x.ms| && DistinctOps(x.ms)
    ensures LaunchHistory(log, LaunchTo(x, n, root, clock, saves), root, clock, n)
  {
    if n > 0 {
      LaunchHistoryPass(log, x, root, clock, saves, n - 1);
      LaunchDistinct(x, n - 1, root, clock, saves);
      LaunchHistoryTo(log, LaunchTo(x, n - 1, root, clock, saves), LaunchTo(x, n, root, clock, saves), root, clock, n, saves[n - 1]);
    }
  }

  lemma SyncUnlaunched(ms: seq<Member>, ops: Ops, cause: Cause, disk: Disk, clock: Time, root: OpId, log: seq<Exec>)
    requires Linked(ops, disk, clock) && Unlaunched(ms, root, log)
    ensures Unlaunched(SyncedMembers(ms, ops, cause), root, log) && Waiting(ops, SyncedMembers(ms, ops, cause), 0)
  {
    var us := SyncedMembers(ms, ops, cause);
    forall i | 0 <= i < |us| && us[i].state == Queued ensures us[i] == ms[i] && us[i].op !in ops {
      assert ms[i].op in ops ==> RecordOk(ms[i].op, ops[ms[i].op].record, clock);
    }
    forall m | m in us && m.state == Queued ensures m in ms {
      var i :| 0 <= i < |us| && us[i] == m;
    }
  }

  ghost predicate BatchAt(s: State, root: OpId, saves: seq<bool>) {
    && root in s.ops && s.ops[root].live && s.ops[root].record.members.Some?
    && |saves| == |s.ops[root].record.members.value|
  }

  lemma SweepHistory(s: State, root: OpId, saves: seq<bool>)
    requires History(s) && s.up && BatchAt(s, root, saves)
    ensures LaunchHistory(s.log, Swept(s, root, saves), root, s.clock, |saves|)
    ensures SameTargets(s.ops[root].record.members.value, Swept(s, root, saves).ms)
    ensures forall id :: id in s.ops ==> id in Swept(s, root, saves).ops
  {
    var op := s.ops[root];
    var was := op.record.members.value;
    var ms := SyncedMembers(was, s.ops, op.cause);
    assert Unlaunched(was, root, s.log) && RecordOk(root, op.record, s.clock);
    SyncUnlaunched(was, s.ops, op.cause, s.disk, s.clock, root, s.log);
    SameTargetsShape(was, ms);
    var x := Started(s, root, ms);
    if op.cause == Going {
      LaunchHistoryPass(s.log, x, root, s.clock, saves, |ms|);
      LaunchTargets(x, |ms|, root, s.clock, saves);
      LaunchAdds(x, |ms|, root, s.clock, saves);
    }
  }

  lemma LaunchAdds(x: Sched, n: nat, root: OpId, now: Time, saves: seq<bool>)
    requires n <= |x.ms| && n <= |saves|
    ensures forall id :: id in x.ops ==> id in LaunchTo(x, n, root, now, saves).ops
  {
  }

  lemma BatchRecordOk(root: OpId, op: Op, ms: seq<Member>, clock: Time)
    requires RecordOk(root, op.record, clock) && op.record.members.Some? && SameTargets(op.record.members.value, ms)
    requires Busy(op.record.state)
    ensures RecordOk(root, BatchRecord(op, ms, clock), clock)
    ensures Done(ms) ==> RecordOk(root, BatchRecord(op, ms, clock).(state := Failed), clock)
  {
    SameTargetsShape(op.record.members.value, ms);
    DoneIff(ms);
  }

  lemma OthersUnlaunched(base: Ops, ops: Ops, log: seq<Exec>, more: seq<Exec>, root: OpId, op: Op)
    requires QueuedUnlaunched(base, log) && Grown(log, more, root) && Extends(base, ops, root)
    requires op.record.members.Some? && Unlaunched(op.record.members.value, root, more)
    ensures QueuedUnlaunched(ops[root := op], more)
  {
    var after := ops[root := op];
    forall r | r in after && after[r].record.members.Some? ensures Unlaunched(after[r].record.members.value, r, more) {
      if r != root {
        assert r in base && Unlaunched(base[r].record.members.value, r, log);
      }
    }
  }

  lemma TickHistory(s: State, root: OpId, saves: seq<bool>, saved: bool, names: Names)
    requires History(s) && s.up && OpsInv(s.ops, names) && BatchAt(s, root, saves)
    ensures History(Ticked(s, root, saves, saved))
  {
    var y := Swept(s, root, saves);
    SweepHistory(s, root, saves);
    SweepKeeps(s, root, saves, names);
    ConcludedHistory(s, root, y, saved);
  }

  lemma RewriteLinked(ops: Ops, disk: Disk, id: OpId, op: Op, record: Record, written: bool, clock: Time)
    requires DiskOk(disk, clock) && Linked(ops, disk, clock) && id in ops
    requires RecordOk(id, op.record, clock) && RecordOk(id, record, clock)
    requires op.record.created == ops[id].record.created && record.created == ops[id].record.created
    ensures var more := if written then disk[id := record] else disk;
            && DiskOk(more, clock) && Linked(ops[id := op], more, clock)
            && forall i :: i in disk ==> i in more && more[i].created == disk[i].created
  {
  }

  lemma ConcludedHistory(s: State, root: OpId, y: Sched, saved: bool)
    requires History(s) && s.up && root in s.ops && Busy(s.ops[root].record.state) && s.ops[root].record.members.Some?
    requires exists n :: LaunchHistory(s.log, y, root, s.clock, n)
    requires SameTargets(s.ops[root].record.members.value, y.ms) && Extends(s.ops, y.ops, root)
    ensures History(Concluded(s, root, y, saved))
  {
    var op := s.ops[root];
    var r := Concluded(s, root, y, saved);
    assert RecordOk(root, op.record, s.clock);
    BatchRecordOk(root, op, y.ms, s.clock);
    var changed := op.record.members != Some(y.ms) || Done(y.ms);
    RewriteLinked(y.ops, y.disk, root, r.ops[root], BatchRecord(op, y.ms, s.clock), changed && saved, s.clock);
    LogStays(y.log, y.disk, r.disk, s.clock);
    OthersUnlaunched(s.ops, y.ops, s.log, y.log, root, r.ops[root]);
  }

  // ----- recovery -----

  lemma MarkedOk(disk: Disk, clock: Time, id: OpId)
    requires DiskOk(disk, clock) && id in Marked(disk, clock)
    ensures RecordOk(id, Marked(disk, clock)[id], clock) && Settled(Marked(disk, clock)[id].state)
  {
    assert RecordOk(id, disk[id], clock);
  }

  /** After a restart no batch has a member left open. */
  lemma RecoverySettles(disk: Disk, clock: Time, id: OpId)
    requires DiskOk(disk, clock) && id in RecoveredDisk(disk, clock) && RecoveredDisk(disk, clock)[id].members.Some?
    ensures AllSettled(RecoveredDisk(disk, clock)[id].members.value)
  {
    var marked := Marked(disk, clock);
    MarkedOk(disk, clock, id);
    var was := marked[id].members.value;
    var ms := RecoveredDisk(disk, clock)[id].members.value;
    if marked[id].state == Interrupted {
      forall m | m in ms ensures Settled(m.state) {
        var i :| 0 <= i < |ms| && ms[i] == m;
        if was[i].op in marked {
          MarkedOk(disk, clock, was[i].op);
        }
      }
    }
  }

  lemma RecoveredOk(disk: Disk, clock: Time, id: OpId)
    requires DiskOk(disk, clock) && id in RecoveredDisk(disk, clock)
    ensures RecordOk(id, RecoveredDisk(disk, clock)[id], clock) && Settled(RecoveredDisk(disk, clock)[id].state)
    ensures RecoveredDisk(disk, clock)[id].created == disk[id].created
  {
    var marked := Marked(disk, clock);
    MarkedOk(disk, clock, id);
    if marked[id].members.Some? && marked[id].state == Interrupted {
      SameTargetsShape(marked[id].members.value, RecoveredMembers(marked[id].members.value, id, marked));
    }
  }

  lemma ExpiredOld(disk: Disk, clock: Time, id: OpId)
    requires DiskOk(disk, clock) && id in disk && Expired(disk[id], clock)
    ensures clock - disk[id].created > RETENTION
  {
    assert RecordOk(id, disk[id], clock);
  }

  lemma RecoverHistory(s: State)
    requires History(s)
    ensures History(Recovered(s))
  {
    var r := Recovered(s);
    forall id | id in r.disk ensures RecordOk(id, r.disk[id], s.clock) && r.disk[id].created == s.disk[id].created {
      RecoveredOk(s.disk, s.clock, id);
    }
    forall id | id in s.disk && id !in r.disk ensures s.clock - s.disk[id].created > RETENTION {
      ExpiredOld(s.disk, s.clock, id);
    }
    LogShrinks(s.log, s.disk, r.disk, s.clock);
    forall id | id in r.ops && r.ops[id].record.members.Some? ensures Unlaunched(r.ops[id].record.members.value, id, r.log) {
      RecoverySettles(s.disk, s.clock, id);
    }
  }

  lemma HalfRecoverHistory(s: State, gone: set<OpId>, marked: set<OpId>, projected: set<OpId>)
    requires History(s) && !s.up
    ensures History(HalfRecovered(s, gone, marked, projected))
  {
    var r := HalfRecovered(s, gone, marked, projected);
    forall id | id in r.disk ensures RecordOk(id, r.disk[id], s.clock) && r.disk[id].created == s.disk[id].created {
      assert RecordOk(id, s.disk[id], s.clock);
      if id in RecoveredDisk(s.disk, s.clock) {
        RecoveredOk(s.disk, s.clock, id);
        MarkedOk(s.disk, s.clock, id);
      }
    }
    forall id | id in s.disk && id !in r.disk ensures s.clock - s.disk[id].created > RETENTION {
      ExpiredOld(s.disk, s.clock, id);
    }
    LogShrinks(s.log, s.disk, r.disk, s.clock);
  }
}
