/**
  The node operation manager as an object: the table, the receipts and the loops over
  them, each method refining one step of the state machine.
  */
module NodeManager {
  import opened Wrappers
  import opened NodeBatch
  import opened NodeOperations

  class Manager {
    var ops: Ops
    var disk: Disk
    ghost var log: seq<Exec>
    var clock: Time
    var up: bool
    var closed: bool

    ghost function Value(): (s: State)
      reads this
    {
      State(ops, disk, log, clock, up, closed)
    }

    /** Batch roots do not count: they only wait. */
    method ExecutingCount() returns (n: nat)
      ensures n == |Singles(ops)|
    {
      var ids := ops.Keys;
      n := 0;
      ghost var counted: set<OpId> := {};
      while ids != {}
        invariant ids <= ops.Keys
        invariant counted == set id | id in Singles(ops) && id !in ids
        invariant n == |counted|
      {
        var id :| id in ids;
        ids := ids - {id};
        if ops[id].live && ops[id].record.members.None? {
          n := n + 1;
          counted := counted + {id};
        }
      }
      assert counted == Singles(ops);
    }

    /** The scan of live operations: the first conflict found, or how many of them are no batch's child. */
    method ScanLive(keys: set<Key>) returns (conflict: bool, active: nat)
      ensures conflict <==> Conflicts(ops, keys)
      ensures !conflict ==> active == |Roots(ops)|
    {
      var ids := ops.Keys;
      active := 0;
      ghost var counted: set<OpId> := {};
      while ids != {}
        invariant ids <= ops.Keys
        invariant forall id :: id in ops && id !in ids && ops[id].live ==> ops[id].keys * keys == {}
        invariant counted == set id | id in Roots(ops) && id !in ids
        invariant active == |counted|
      {
        var id :| id in ids;
        ids := ids - {id};
        if ops[id].live {
          if ops[id].record.batchId.None? {
            active := active + 1;
            counted := counted + {id};
          }
          if ops[id].keys * keys != {} {
            return true, active;
          }
        }
      }
      assert counted == Roots(ops);
      conflict := false;
    }

    /** Removes expired records with their receipts until one receipt cannot be removed. */
    method Prune(removable: set<OpId>) returns (ok: bool, ghost gone: set<OpId>)
      modifies this`ops, this`disk
      ensures gone <= ExpiredIds(old(ops), clock) && (ok ==> gone == ExpiredIds(old(ops), clock))
      ensures Value() == Pruned(old(Value()), gone)
    {
      gone := {};
      var ids := ops.Keys;
      while ids != {}
        invariant ids <= ops.Keys && gone <= ExpiredIds(old(ops), clock)
        invariant ops == old(ops) - gone && disk == old(disk) - gone
        invariant forall id :: id in ExpiredIds(old(ops), clock) ==> id in gone || id in ids
      {
        var id :| id in ids;
        if Expired(ops[id].record, clock) {
          if id !in removable {
            return false, gone;
          }
          disk := disk - {id};
          ops := ops - {id};
          gone := gone + {id};
        }
        ids := ids - {id};
      }
      ok := true;
    }

    method SubmitRequest(req: Request, removable: set<OpId>, saved: bool) returns (ghost gone: set<OpId>, ghost pruned: bool)
      modifies this`ops, this`disk, this`log
      ensures gone <= ExpiredIds(old(ops), clock) && (pruned ==> gone == ExpiredIds(old(ops), clock))
      ensures Value() == Submitted(old(Value()), req, gone, pruned, saved)
    {
      gone, pruned := ExpiredIds(ops, clock), true;
      if !up || closed || (req.id in ops && !Expired(ops[req.id].record, clock)) {
        return;
      }
      var ok, removed := Prune(removable);
      gone, pruned := removed, ok;
      if !ok {
        return;
      }
      var conflict, active := ScanLive(req.keys);
      if conflict {
        return;
      }
      var executing := ExecutingCount();
      if active >= OPERATION_LIMIT || (req.members.None? && executing >= OPERATION_LIMIT) || !saved {
        return;
      }
      var record := Record(Running, clock, None, None, req.node, req.members);
      disk := disk[req.id := record];
      ops := ops[req.id := Op(record, req.keys, true, Going)];
      log := log + [Exec(req.id, clock, None)];
    }

    method CancelOperation(id: OpId, saved: bool)
      requires id in ops
      modifies this`ops, this`disk
      ensures Value() == CancelRequested(old(Value()), id, saved)
    {
      if !ops[id].live || !saved {
        return;
      }
      var record := ops[id].record.(state := Canceling);
      disk := disk[id := record];
      var was := ops;
      ops := ops[id := Ended(ops[id].(record := record), CanceledByUser)];
      var ids := was.Keys - {id};
      while ids != {}
        invariant ids <= was.Keys && id !in ids && disk == old(disk)[id := record]
        invariant ops == map i | i in was :: if i in ids then was[i] else CanceledOps(was, id)[i]
      {
        var i :| i in ids;
        if ops[i].record.batchId == Some(id) {
          ops := ops[i := Ended(ops[i], CanceledByUser)];
        }
        ids := ids - {i};
      }
      assert ops == CanceledOps(was, id);
    }

    method CloseAll()
      modifies this`ops, this`closed
      ensures Value() == ShutDown(old(Value()))
    {
      closed := true;
      ghost var was := ops;
      var ids := ops.Keys;
      while ids != {}
        invariant ids <= was.Keys && closed
        invariant ops == map i | i in was :: if i in ids then was[i] else Ended(was[i], Closed)
      {
        var i :| i in ids;
        if ops[i].live {
          ops := ops[i := Ended(ops[i], Closed)];
        }
        ids := ids - {i};
      }
      assert ops == ClosedOps(was);
    }

    /** The first pass of a tick: every member follows its operation, or ends with the batch. */
    method SyncMembers(was: seq<Member>, cause: Cause) returns (ms: seq<Member>)
      ensures ms == SyncedMembers(was, ops, cause)
    {
      ms := was;
      for i := 0 to |ms|
        invariant |ms| == |was|
        invariant forall j :: 0 <= j < |ms| ==> ms[j] == if j < i then SyncedMember(was[j], ops, cause) else was[j]
      {
        var m := ms[i];
        if m.op in ops {
          ms := ms[i := m.(state := ops[m.op].record.state)];
        } else if m.state == Queued && cause != Going {
          ms := ms[i := m.(state := if cause == Closed then Interrupted else Canceled)];
        }
      }
    }

    /** The second pass: launch queued members while the batch and the manager have room. */
    method LaunchMembers(start: seq<Member>, root: OpId, saves: seq<bool>) returns (ms: seq<Member>)
      requires |saves| == |start|
      modifies this`ops, this`disk, this`log
      ensures Sched(ops, disk, ms, LaunchTo(Started(old(Value()), root, start), |start|, root, clock, saves).running,
                    LaunchTo(Started(old(Value()), root, start), |start|, root, clock, saves).active, log)
           == LaunchTo(Started(old(Value()), root, start), |start|, root, clock, saves)
    {
      var active: nat := ExecutingCount();
      var tally := Recount(start);
      var running: nat := tally.running;
      ms := start;
      ghost var x := Started(Value(), root, start);
      for i := 0 to |start|
        invariant |ms| == |start|
        invariant Sched(ops, disk, ms, running, active, log) == LaunchTo(x, i, root, clock, saves)
      {
        var m := ms[i];
        if m.state != Queued || running >= PARALLELISM || active >= OPERATION_LIMIT {
          continue;
        }
        if !saves[i] {
          ms := ms[i := m.(state := Failed)];
          continue;
        }
        var record := Record(Running, clock, None, Some(root), m.node, None);
        disk := disk[m.op := record];
        ops := ops[m.op := Op(record, {}, true, Going)];
        ms := ms[i := m.(state := Running)];
        running, active := running + 1, active + 1;
        log := log + [Exec(m.op, clock, Some(root))];
      }
    }

    /** One turn of the batch loop. */
    method BatchTick(root: OpId, saves: seq<bool>, saved: bool)
      requires root in ops && ops[root].record.members.Some? && |saves| == |ops[root].record.members.value|
      modifies this`ops, this`disk, this`log
      ensures Value() == Ticked(old(Value()), root, saves, saved)
    {
      var op := ops[root];
      var ms := SyncMembers(op.record.members.value, op.cause);
      if op.cause == Going {
        ms := LaunchMembers(ms, root, saves);
      }
      var tally := Recount(ms);
      var done := tally.queued + tally.running == 0;
      var record := op.record.(members := Some(ms));
      var changed := op.record.members.value != ms;
      if done {
        var state := if tally.succeeded == tally.total then Succeeded else Failed;
        if op.cause == CanceledByUser {
          state := Canceled;
        } else if op.cause == Closed {
          state := Interrupted;
        }
        record := record.(state := state, finished := if op.cause == Closed then None else Some(clock));
        changed := true;
      }
      if changed && saved {
        disk := disk[root := record];
      } else if changed && done {
        record := record.(state := Failed);
      }
      ops := ops[root := op.(record := record, live := !done)];
    }

    /** Reprojects every interrupted batch from its children's receipts. */
    method RecoverBatches(marked: Disk)
      requires disk == marked
      modifies this`disk
      ensures disk == map id | id in marked :: RecoveredRecord(marked[id], id, marked)
    {
      var ids := marked.Keys;
      while ids != {}
        invariant ids <= marked.Keys
        invariant disk == map id | id in marked :: if id in ids then marked[id] else RecoveredRecord(marked[id], id, marked)
      {
        var id :| id in ids;
        var record := disk[id];
        if record.members.Some? && record.state == Interrupted {
          var was := record.members.value;
          var ms := was;
          for i := 0 to |ms|
            invariant |ms| == |was|
            invariant forall j :: 0 <= j < |ms| ==> ms[j] == if j < i then RecoveredMember(was[j], id, marked) else was[j]
          {
            var m := ms[i];
            if m.op in marked && marked[m.op].batchId == Some(id) && marked[m.op].node == m.node {
              ms := ms[i := m.(state := marked[m.op].state)];
            } else if m.state == Queued || m.state == Running || m.state == Canceling {
              ms := ms[i := m.(state := Interrupted)];
            }
          }
          assert ms == RecoveredMembers(was, id, marked);
          disk := disk[id := record.(members := Some(ms))];
        }
        ids := ids - {id};
      }
    }

    /** Loading the receipts: expired ones go, running ones are interrupted, batches are reprojected. */
    method Restart()
      modifies this`ops, this`disk, this`up, this`closed
      ensures Value() == Recovered(old(Value()))
    {
      ghost var was := disk;
      var ids := disk.Keys;
      while ids != {}
        invariant ids <= was.Keys
        invariant disk == map id | id in was && (id in ids || !Expired(was[id], clock)) ::
                            if id in ids then was[id] else MarkedRecord(was[id])
      {
        var id :| id in ids;
        if Expired(disk[id], clock) {
          disk := disk - {id};
        } else if disk[id].state == Running || disk[id].state == Canceling {
          disk := disk[id := disk[id].(state := Interrupted, finished := None)];
        }
        ids := ids - {id};
      }
      assert disk == Marked(was, clock);
      RecoverBatches(disk);
      ops := map id | id in disk :: Op(disk[id], {}, false, Going);
      up, closed := true, false;
    }
  }
}
