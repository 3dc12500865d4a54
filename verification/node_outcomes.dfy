/**
  How operations and batches end, over every run and in terms of what happened: the outcome a
  batch reports, the members a tick leaves waiting, and what cancellation and shutdown reach.
  */
module NodeOutcomes {
  import opened Wrappers
  import opened NodeBatch
  import opened NodeOperations
  import opened NodeSafety
  import opened NodeGuarantees

  // ----- how a batch ends -----

  predicate AllSucceeded(ms: seq<Member>) {
    forall m :: m in ms ==> m.state == Succeeded
  }

  predicate SomeOpen(ms: seq<Member>) {
    exists m :: m in ms && (m.state == Queued || m.state == Running || m.state == Canceling)
  }

  lemma {:induction false} CountAllIff(ms: seq<Member>)
    ensures Count(ms, {Succeeded}) <= |ms|
    ensures Count(ms, {Succeeded}) == |ms| <==> AllSucceeded(ms)
  {
    if ms != [] {
      CountAllIff(ms[..|ms| - 1]);
      assert ms == ms[..|ms| - 1] + [ms[|ms| - 1]];
    }
  }

  lemma OpenIff(ms: seq<Member>)
    ensures Done(ms) <==> !SomeOpen(ms)
  {
    DoneIff(ms);
  }

  lemma RecordEnds(op: Op, ms: seq<Member>, now: Time)
    ensures var r := BatchRecord(op, ms, now);
            && r.members == Some(ms)
            && (!SomeOpen(ms) ==>
                  && r.state == (if op.cause == Closed then Interrupted else if op.cause == CanceledByUser then Canceled
                                 else if AllSucceeded(ms) then Succeeded else Failed)
                  && (r.finished == if op.cause == Closed then None else Some(now)))
            && (SomeOpen(ms) ==> r.state == op.record.state && r.finished == op.record.finished)
  {
    OpenIff(ms);
    CountAllIff(ms);
  }

  lemma ConcludedIs(s: State, root: OpId, y: Sched, saved: bool)
    requires root in s.ops
    ensures var r, record := Concluded(s, root, y, saved), BatchRecord(s.ops[root], y.ms, s.clock);
            && r.ops[root].record.members == Some(y.ms) && (r.ops[root].live <==> SomeOpen(y.ms))
            && (!SomeOpen(y.ms) ==> r.ops[root].record == if saved then record else record.(state := Failed))
            && (!SomeOpen(y.ms) && saved ==> root in r.disk && r.disk[root] == record)
  {
    OpenIff(y.ms);
  }

  /**
    In every run, a tick ends a batch exactly when no member is queued or busy any more. It then
    ends as succeeded if and only if nobody canceled it and the daemon was not closing, every
    member succeeded and the receipt was written; as canceled or interrupted if and only if that
    was its cause and the receipt was written; and else as failed.
    */
  lemma BatchEndsIff(acts: seq<Action>, end: State, names: Names, root: OpId, saves: seq<bool>, saved: bool)
    requires Runs(EMPTY, acts, end, names) && Enabled(end, Tick(root, saves, saved), names)
    ensures var op, r := end.ops[root], Step(end, Tick(root, saves, saved), names);
            root in r.ops && r.ops[root].record.members.Some? &&
            var ms, after := r.ops[root].record.members.value, r.ops[root].record.state;
            && (r.ops[root].live <==> SomeOpen(ms))
            && (!r.ops[root].live ==>
                  && (after == Succeeded <==> op.cause == Going && AllSucceeded(ms) && saved)
                  && (after == Canceled <==> op.cause == CanceledByUser && saved)
                  && (after == Interrupted <==> op.cause == Closed && saved)
                  && (after == Failed <==> !saved || (op.cause == Going && !AllSucceeded(ms)))
                  && (saved ==> root in r.disk && r.disk[root] == r.ops[root].record))
  {
    var y := Swept(end, root, saves);
    ConcludedIs(end, root, y, saved);
    RecordEnds(end.ops[root], y.ms, end.clock);
  }

  // ----- no receipt claims a success that was none -----

  ghost predicate TruthfulRecord(r: Record) {
    r.members.Some? && r.state == Succeeded ==> AllSucceeded(r.members.value)
  }

  ghost predicate TruthfulOps(ops: Ops) {
    forall id :: id in ops ==> TruthfulRecord(ops[id].record)
  }

  ghost predicate TruthfulDisk(disk: Disk) {
    forall id :: id in disk ==> TruthfulRecord(disk[id])
  }

  ghost predicate Truthful(s: State) {
    TruthfulOps(s.ops) && TruthfulDisk(s.disk)
  }

  lemma OpsUpdate(ops: Ops, id: OpId, op: Op)
    requires TruthfulOps(ops) && TruthfulRecord(op.record)
    ensures TruthfulOps(ops[id := op])
  {
  }

  lemma DiskUpdate(disk: Disk, id: OpId, r: Record)
    requires TruthfulDisk(disk) && TruthfulRecord(r)
    ensures TruthfulDisk(disk[id := r])
  {
  }

  lemma LaunchTruthful(x: Sched, i: nat, root: OpId, now: Time, saved: bool)
    requires i < |x.ms| && TruthfulOps(x.ops) && TruthfulDisk(x.disk)
    ensures var y := LaunchAt(x, i, root, now, saved); TruthfulOps(y.ops) && TruthfulDisk(y.disk)
  {
    OpsUpdate(x.ops, x.ms[i].op, Child(x.ms[i], root, now));
    DiskUpdate(x.disk, x.ms[i].op, ChildReceipt(x.ms[i], root, now));
  }

  lemma SweptTruthful(s: State, root: OpId, saves: seq<bool>)
    requires Truthful(s) && root in s.ops && s.ops[root].record.members.Some? && |saves| == |s.ops[root].record.members.value|
    ensures var y := Swept(s, root, saves); TruthfulOps(y.ops) && TruthfulDisk(y.disk)
  {
    var op := s.ops[root];
    var ms := SyncedMembers(op.record.members.value, s.ops, op.cause);
    var kept := (y: Sched, i: nat) => TruthfulOps(y.ops) && TruthfulDisk(y.disk);
    var x := Started(s, root, ms);
    forall y: Sched, i: nat, saved: bool | i < |ms| && |y.ms| == |ms| && kept(y, i)
      ensures kept(LaunchAt(y, i, root, s.clock, saved), i + 1)
    {
      LaunchTruthful(y, i, root, s.clock, saved);
    }
    LaunchInduction(kept, x, root, s.clock, saves, |ms|);
  }

  lemma TickTruthful(s: State, root: OpId, saves: seq<bool>, saved: bool)
    requires Truthful(s) && root in s.ops && s.ops[root].record.members.Some? && |saves| == |s.ops[root].record.members.value|
    requires Busy(s.ops[root].record.state)
    ensures Truthful(Ticked(s, root, saves, saved))
  {
    var y := Swept(s, root, saves);
    SweptTruthful(s, root, saves);
    var record := BatchRecord(s.ops[root], y.ms, s.clock);
    RecordEnds(s.ops[root], y.ms, s.clock);
    assert TruthfulRecord(record);
    OpsUpdate(y.ops, root, Concluded(s, root, y, saved).ops[root]);
    DiskUpdate(y.disk, root, record);
  }

  lemma RecoverTruthful(s: State)
    requires Truthful(s)
    ensures Truthful(Recovered(s))
  {
  }

  lemma HalfTruthful(s: State, gone: set<OpId>, marked: set<OpId>, projected: set<OpId>)
    requires Truthful(s)
    ensures Truthful(HalfRecovered(s, gone, marked, projected))
  {
    RecoverTruthful(s);
  }

  lemma SubmitTruthful(s: State, req: Request, gone: set<OpId>, pruned: bool, saved: bool)
    requires Truthful(s)
    ensures Truthful(Submitted(s, req, gone, pruned, saved))
  {
  }

  lemma CancelTruthful(s: State, id: OpId, saved: bool)
    requires Truthful(s) && id in s.ops
    ensures Truthful(CancelRequested(s, id, saved))
  {
  }

  lemma SingleTruthful(s: State, a: Action, names: Names)
    requires Truthful(s) && Enabled(s, a, names) && (a.Bind? || a.Complete?)
    ensures Truthful(Step(s, a, names))
  {
  }

  lemma StepTruthful(s: State, a: Action, names: Names)
    requires OpsInv(s.ops, names) && Truthful(s) && Enabled(s, a, names)
    ensures Truthful(Step(s, a, names))
  {
    match a
    case Tick(root, saves, saved) =>
      assert ShapedOp(root, s.ops[root]);
      TickTruthful(s, root, saves, saved);
    case Recover => RecoverTruthful(s);
    case HalfRecover(gone, marked, projected) => HalfTruthful(s, gone, marked, projected);
    case Submit(req, gone, pruned, saved) => SubmitTruthful(s, req, gone, pruned, saved);
    case Cancel(id, saved) => CancelTruthful(s, id, saved);
    case Bind(_, _, _) => SingleTruthful(s, a, names);
    case Complete(_, _, _, _) => SingleTruthful(s, a, names);
    case _ =>
  }

  /** In every run, crashes included, whatever claims that a batch succeeded shows only members that did. */
  lemma {:induction false} SuccessIsTrue(acts: seq<Action>, end: State, names: Names)
    requires Runs(EMPTY, acts, end, names)
    ensures Truthful(end)
    decreases |acts|
  {
    if acts != [] {
      var n := |acts| - 1;
      var mid :| Runs(EMPTY, acts[..n], mid, names) && Enabled(mid, acts[n], names) && end == Step(mid, acts[n], names);
      SuccessIsTrue(acts[..n], mid, names);
      RunKeeps(acts[..n], mid, names);
      StepTruthful(mid, acts[n], names);
    }
  }

  // ----- whom a tick leaves waiting -----

  function BusyAt(ms: seq<Member>): (r: set<nat>) {
    set i: nat | i < |ms| && (ms[i].state == Running || ms[i].state == Canceling)
  }

  lemma {:induction false} CountIsSize(ms: seq<Member>)
    ensures Count(ms, BUSY) == |BusyAt(ms)|
  {
    if ms == [] {
      assert BusyAt(ms) == {};
    } else {
      var n := |ms| - 1;
      CountIsSize(ms[..n]);
      assert BusyAt(ms) == BusyAt(ms[..n]) + if ms[n].state in BUSY then {n} else {};
    }
  }

  /** Members looked at so far wait only because a limit is reached. */
  predicate Crowded(y: Sched, i: nat) {
    forall k :: 0 <= k < i && k < |y.ms| && y.ms[k].state == Queued ==> y.running >= 4 || y.active >= 16
  }

  lemma {:induction false} LaunchCrowds(x: Sched, root: OpId, now: Time, saves: seq<bool>, n: nat)
    requires n <= |x.ms| && n <= |saves|
    ensures Crowded(LaunchTo(x, n, root, now, saves), n)
  {
    if n > 0 {
      LaunchCrowds(x, root, now, saves, n - 1);
    }
  }

  lemma SinglesOfRoot(ops: Ops, root: OpId, op: Op)
    requires root in ops && ops[root].record.members.Some? && op.record.members.Some?
    ensures Singles(ops[root := op]) == Singles(ops)
  {
  }

  /** What the sweep of a tick leaves: queued members only under a limit, and exact counters. */
  lemma SweepCrowds(s: State, root: OpId, saves: seq<bool>, names: Names)
    requires Inv(s, names) && Enabled(s, Tick(root, saves, true), names) && s.ops[root].cause == Going
    ensures var y := Swept(s, root, saves); Crowded(y, |y.ms|) && y.running == |BusyAt(y.ms)| && y.active == |Singles(y.ops)|
    ensures var y := Swept(s, root, saves); root in y.ops && y.ops[root].record.members.Some?
  {
    var op, y := s.ops[root], Swept(s, root, saves);
    var ms := SyncedMembers(op.record.members.value, s.ops, op.cause);
    SweepKeeps(s, root, saves, names);
    LaunchCrowds(Started(s, root, ms), root, s.clock, saves, |ms|);
    CountIsSize(y.ms);
  }

  /**
    In every run, a tick of a batch nobody has ended leaves a member queued only if four members
    of the batch are busy or sixteen operations execute.
    */
  lemma WaitsOnlyWhenFull(acts: seq<Action>, end: State, names: Names, root: OpId, saves: seq<bool>, saved: bool, m: Member)
    requires Runs(EMPTY, acts, end, names) && Enabled(end, Tick(root, saves, saved), names) && end.ops[root].cause == Going
    requires var r := Step(end, Tick(root, saves, saved), names); r.ops[root].record.members.Some? && m in r.ops[root].record.members.value
    requires m.state == Queued
    ensures var r := Step(end, Tick(root, saves, saved), names);
            |BusyAt(r.ops[root].record.members.value)| >= 4 || |Singles(r.ops)| >= 16
  {
    RunKeeps(acts, end, names);
    SweepCrowds(end, root, saves, names);
    ConcludedIs(end, root, Swept(end, root, saves), saved);
    ConcludedWaits(end, root, Swept(end, root, saves), saved, m);
  }

  lemma ConcludedWaits(s: State, root: OpId, y: Sched, saved: bool, m: Member)
    requires root in s.ops && s.ops[root].live && s.ops[root].record.members.Some? && m in y.ms && m.state == Queued
    requires root in y.ops && y.ops[root].record.members.Some?
    requires Crowded(y, |y.ms|) && y.running == |BusyAt(y.ms)| && y.active == |Singles(y.ops)|
    ensures var r := Concluded(s, root, y, saved);
            && root in r.ops && r.ops[root].record.members == Some(y.ms)
            && (|BusyAt(y.ms)| >= 4 || |Singles(r.ops)| >= 16)
  {
    var k :| 0 <= k < |y.ms| && y.ms[k] == m;
    ConcludedIs(s, root, y, saved);
    SinglesOfRoot(y.ops, root, Concluded(s, root, y, saved).ops[root]);
  }

  // ----- members follow their operations -----

  lemma {:induction false} LaunchLeaves(x: Sched, root: OpId, now: Time, saves: seq<bool>, n: nat, i: nat)
    requires n <= |x.ms| && n <= |saves| && i < |x.ms| && x.ms[i].state != Queued
    ensures LaunchTo(x, n, root, now, saves).ms[i] == x.ms[i]
  {
    if n > 0 {
      LaunchLeaves(x, root, now, saves, n - 1, i);
    }
  }

  /** In every run, after a tick each member that has an operation shows what that operation says. */
  lemma MembersFollow(acts: seq<Action>, end: State, names: Names, root: OpId, saves: seq<bool>, saved: bool, i: nat)
    requires Runs(EMPTY, acts, end, names) && Enabled(end, Tick(root, saves, saved), names)
    requires i < |end.ops[root].record.members.value| && end.ops[root].record.members.value[i].op in end.ops
    requires end.ops[end.ops[root].record.members.value[i].op].record.state != Queued
    ensures var was, r := end.ops[root].record.members.value, Step(end, Tick(root, saves, saved), names).ops[root].record.members;
            r.Some? && |r.value| == |was| && r.value[i] == was[i].(state := end.ops[was[i].op].record.state)
  {
    var op, y := end.ops[root], Swept(end, root, saves);
    var ms := SyncedMembers(op.record.members.value, end.ops, op.cause);
    ConcludedIs(end, root, y, saved);
    if op.cause == Going {
      LaunchLeaves(Started(end, root, ms), root, end.clock, saves, |ms|, i);
    }
  }

  /** A member that never had an operation ends with the context of its batch. */
  lemma UnstartedMembersEnd(acts: seq<Action>, end: State, names: Names, root: OpId, saves: seq<bool>, saved: bool, i: nat)
    requires Runs(EMPTY, acts, end, names) && Enabled(end, Tick(root, saves, saved), names) && end.ops[root].cause != Going
    requires i < |end.ops[root].record.members.value|
    requires var m := end.ops[root].record.members.value[i]; m.op !in end.ops && m.state == Queued
    ensures var r := Step(end, Tick(root, saves, saved), names).ops[root].record.members;
            r.Some? && i < |r.value| && r.value[i].state == if end.ops[root].cause == Closed then Interrupted else Canceled
  {
    ConcludedIs(end, root, Swept(end, root, saves), saved);
  }

  // ----- a single operation -----

  /**
    An operation that completes is interrupted if the daemon is closing; else canceled if it was
    canceled and could be stopped; else failed or succeeded as its work was; and shown as failed
    if its receipt could not be written.
    */
  lemma CompletedIff(s: State, id: OpId, failed: bool, stopFailed: bool, saved: bool)
    requires id in s.ops
    ensures var op, r := s.ops[id], Completed(s, id, failed, stopFailed, saved);
            var canceled := op.cause == CanceledByUser && !stopFailed;
            && !r.ops[id].live && r.ops[id].keys == op.keys
            && (r.ops[id].record.state == Interrupted <==> saved && op.cause == Closed)
            && (r.ops[id].record.state == Canceled <==> saved && canceled)
            && (r.ops[id].record.state == Succeeded <==> saved && op.cause != Closed && !canceled && !failed)
            && (r.ops[id].record.state == Failed <==> !saved || (op.cause != Closed && !canceled && failed))
            && r.ops[id].record.finished == (if op.cause == Closed then None else Some(s.clock))
            && (saved ==> r.disk == s.disk[id := r.ops[id].record]) && (!saved ==> r.disk == s.disk)
  {
  }

  // ----- cancellation and shutdown -----

  /**
    Canceling a live operation whose receipt is written leaves neither it nor any of its children
    going; a cause that is already there stays; every other operation is left alone.
    */
  lemma CancelReaches(s: State, id: OpId)
    requires id in s.ops && s.ops[id].live
    ensures var r := CancelRequested(s, id, true);
            && r.ops.Keys == s.ops.Keys && r.disk == s.disk[id := s.ops[id].record.(state := Canceling)]
            && r.ops[id].cause != Going && r.ops[id].record == r.disk[id]
            && (forall c :: c in s.ops && c != id && s.ops[c].record.batchId == Some(id) && s.ops[c].live ==> r.ops[c].cause != Going)
            && (forall c :: c in s.ops && s.ops[c].cause != Going ==> r.ops[c].cause == s.ops[c].cause)
            && (forall c :: c in s.ops && c != id && s.ops[c].record.batchId != Some(id) ==> r.ops[c] == s.ops[c])
            && (forall c :: c in s.ops && c != id ==> r.ops[c] == s.ops[c].(cause := r.ops[c].cause))
  {
  }

  /** Closing ends every live operation, leaves earlier causes alone, and nothing is admitted from then on. */
  lemma CloseReaches(s: State)
    ensures var r := ShutDown(s);
            && r.closed && r.disk == s.disk && r.ops.Keys == s.ops.Keys
            && (forall c :: c in s.ops ==> r.ops[c] == s.ops[c].(cause := r.ops[c].cause))
            && (forall c :: c in s.ops && s.ops[c].live ==> r.ops[c].cause == if s.ops[c].cause == Going then Closed else s.ops[c].cause)
    ensures forall req: Request, gone: set<OpId>, pruned: bool, saved: bool :: Submitted(ShutDown(s), req, gone, pruned, saved) == ShutDown(s)
  {
  }

  // ----- admission -----

  /** Live operations that are no batch's child, and live ones that execute. */
  function LiveRoots(ops: Ops): (r: set<OpId>) {
    set id | id in ops && ops[id].live && ops[id].record.batchId == None
  }

  function LiveSingles(ops: Ops): (r: set<OpId>) {
    set id | id in ops && ops[id].live && ops[id].record.members == None
  }

  /**
    In every run, a submission is executed if and only if the daemon is up and not closing, its
    ID has no record younger than seven days or still busy, pruning and the receipt could be
    written, no live operation holds one of its keys, fewer than sixteen live operations are no
    batch's child, and, unless it is a batch, fewer than sixteen execute.
    */
  lemma SubmittedIff(acts: seq<Action>, end: State, names: Names, req: Request, gone: set<OpId>, pruned: bool, saved: bool)
    requires Runs(EMPTY, acts, end, names) && Enabled(end, Submit(req, gone, pruned, saved), names)
    ensures var r := Step(end, Submit(req, gone, pruned, saved), names);
            var left := end.ops - gone;
            r.log == end.log + [Exec(req.id, end.clock, None)] <==>
              && end.up && !end.closed && pruned && saved
              && (req.id in end.ops ==> !Busy(end.ops[req.id].record.state) && end.clock - At(end.ops[req.id].record) > 604800)
              && (forall id :: id in left && left[id].live ==> left[id].keys * req.keys == {})
              && |LiveRoots(left)| < 16 && (req.members == None ==> |LiveSingles(left)| < 16)
  {
    var left := end.ops - gone;
    assert LiveRoots(left) == Roots(left) && LiveSingles(left) == Singles(left);
  }

  /** The table after an admission: the new operation, holding its keys, and nothing else changed but what was pruned. */
  lemma AdmittedIs(s: State, req: Request, gone: set<OpId>)
    ensures var r := Admitted(Pruned(s, gone), req);
            var record := Record(Running, s.clock, None, None, req.node, req.members);
            && r.ops == (s.ops - gone)[req.id := Op(record, req.keys, true, Going)]
            && r.disk == (s.disk - gone)[req.id := record] && r.clock == s.clock && r.up == s.up && r.closed == s.closed
  {
  }

  lemma RootsShrink(s: State, a: Action, names: Names)
    requires OpsInv(s.ops, names) && Enabled(s, a, names) && !a.Submit? && !a.Tick?
    ensures LiveRoots(Step(s, a, names).ops) <= LiveRoots(s.ops)
  {
  }

  lemma {:induction false} LaunchRoots(x: Sched, root: OpId, now: Time, saves: seq<bool>, n: nat)
    requires n <= |x.ms| && n <= |saves|
    ensures LiveRoots(LaunchTo(x, n, root, now, saves).ops) <= LiveRoots(x.ops)
  {
    if n > 0 {
      LaunchRoots(x, root, now, saves, n - 1);
    }
  }

  lemma TickRoots(s: State, root: OpId, saves: seq<bool>, saved: bool)
    requires root in s.ops && s.ops[root].live && s.ops[root].record.members.Some? && |saves| == |s.ops[root].record.members.value|
    ensures LiveRoots(Ticked(s, root, saves, saved).ops) <= LiveRoots(s.ops)
  {
    var op, y := s.ops[root], Swept(s, root, saves);
    var ms := SyncedMembers(op.record.members.value, s.ops, op.cause);
    LaunchRoots(Started(s, root, ms), root, s.clock, saves, |ms|);
    ConcludedRoots(s, root, y, saved);
  }

  lemma ConcludedRoots(s: State, root: OpId, y: Sched, saved: bool)
    requires root in s.ops && s.ops[root].live && LiveRoots(y.ops) <= LiveRoots(s.ops)
    ensures LiveRoots(Concluded(s, root, y, saved).ops) <= LiveRoots(s.ops)
  {
  }

  lemma SubmitRoots(s: State, req: Request, gone: set<OpId>, pruned: bool, saved: bool)
    requires |LiveRoots(s.ops)| <= 16
    ensures |LiveRoots(Submitted(s, req, gone, pruned, saved).ops)| <= 16
  {
    var left := s.ops - gone;
    assert LiveRoots(left) == Roots(left);
    SubsetSize(LiveRoots(left), LiveRoots(s.ops));
    var more := left[req.id := Op(Receipt(req, s.clock), req.keys, true, Going)];
    assert LiveRoots(more) <= LiveRoots(left) + {req.id};
    SubsetSize(LiveRoots(more), LiveRoots(left) + {req.id});
  }

  /** In every run, at most sixteen live operations are no batch's child. */
  lemma {:induction false} RootsWithinLimit(acts: seq<Action>, end: State, names: Names)
    requires Runs(EMPTY, acts, end, names)
    ensures |LiveRoots(end.ops)| <= 16
    decreases |acts|
  {
    if acts == [] {
      assert LiveRoots(end.ops) == {};
    } else {
      var n := |acts| - 1;
      var mid :| Runs(EMPTY, acts[..n], mid, names) && Enabled(mid, acts[n], names) && end == Step(mid, acts[n], names);
      RootsWithinLimit(acts[..n], mid, names);
      RunKeeps(acts[..n], mid, names);
      StepRoots(mid, acts[n], names);
    }
  }

  lemma StepRoots(s: State, a: Action, names: Names)
    requires OpsInv(s.ops, names) && Enabled(s, a, names) && |LiveRoots(s.ops)| <= 16
    ensures |LiveRoots(Step(s, a, names).ops)| <= 16
  {
    if a.Submit? {
      SubmitRoots(s, a.req, a.gone, a.pruned, a.saved);
    } else {
      if a.Tick? {
        TickRoots(s, a.root, a.saves, a.saved);
      } else {
        RootsShrink(s, a, names);
      }
      SubsetSize(LiveRoots(Step(s, a, names).ops), LiveRoots(s.ops));
    }
  }

  // ----- a created node -----

  /** Binding a created node records it, holds its key from then on, and writes the receipt if it can. */
  lemma BoundHolds(s: State, id: OpId, node: NodeId, saved: bool)
    requires id in s.ops && s.ops[id].live
    ensures var r := Bound(s, id, node, saved);
            && r.ops.Keys == s.ops.Keys && r.ops[id].record == s.ops[id].record.(node := node)
            && r.ops[id].keys == s.ops[id].keys + {NodeKey(node)} && r.ops[id].live && r.ops[id].cause == s.ops[id].cause
            && (forall c :: c in s.ops && c != id ==> r.ops[c] == s.ops[c])
            && (saved ==> r.disk == s.disk[id := r.ops[id].record]) && (!saved ==> r.disk == s.disk)
    ensures forall req: Request :: NodeKey(node) in req.keys ==> !Admissible(Bound(s, id, node, saved).ops, req)
  {
    var r := Bound(s, id, node, saved);
    forall req: Request | NodeKey(node) in req.keys ensures !Admissible(r.ops, req) {
      assert NodeKey(node) in r.ops[id].keys * req.keys;
    }
  }

  // ----- a restart -----

  /**
    A restart keeps exactly the receipts that are busy or not older than seven days. Busy ones
    become interrupted without an end, the members of interrupted batches are reprojected, and
    nothing else changes. The daemon is up, nothing is live and no key is held.
    */
  lemma RestartIs(s: State, id: OpId)
    ensures var r := Recovered(s);
            && r.up && !r.closed && r.clock == s.clock && r.log == s.log && r.ops.Keys == r.disk.Keys
            && (id in r.disk <==> id in s.disk && (Busy(s.disk[id].state) || s.clock - At(s.disk[id]) <= 604800))
            && (id in r.disk ==>
                  && r.ops[id] == Op(r.disk[id], {}, false, Going)
                  && (r.disk[id] == if Busy(s.disk[id].state)
                                    then s.disk[id].(state := Interrupted, finished := None, members := r.disk[id].members)
                                    else s.disk[id].(members := r.disk[id].members))
                  && (r.disk[id].state != Interrupted ==> r.disk[id] == s.disk[id])
                  && r.disk[id].members.Some? == s.disk[id].members.Some?)
  {
  }
}
