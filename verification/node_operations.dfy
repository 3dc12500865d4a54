/**
  The node operation manager as a state machine: the table of operations, their
  receipts on disk, and every step taken under the manager's mutex, with a crash
  possible between any two of them.

  `log` records each execution that was started, for stating what is never done twice.
  */
module NodeOperations {
  import opened Wrappers
  import opened NodeBatch

  type Time = nat

  const OPERATION_LIMIT: nat := 16
  const RETENTION: nat := 604800

  /** Why an operation's context ended, if it has. */
  datatype Cause = Going | CanceledByUser | Closed

  datatype Record = Record(state: Status, created: Time, finished: Option<Time>, batchId: Option<OpId>,
                           node: NodeId, members: Option<seq<Member>>)
  datatype Op = Op(record: Record, keys: set<Key>, live: bool, cause: Cause)
  datatype Exec = Exec(id: OpId, at: Time, batch: Option<OpId>)

  type Ops = map<OpId, Op>
  type Disk = map<OpId, Record>

  datatype State = State(ops: Ops, disk: Disk, log: seq<Exec>, clock: Time, up: bool, closed: bool)

  // ----- what is counted -----

  /** Operations that execute: batch roots only wait for their children. */
  function Singles(ops: Ops): (r: set<OpId>) {
    set id | id in ops && ops[id].live && ops[id].record.members.None?
  }

  function Roots(ops: Ops): (r: set<OpId>) {
    set id | id in ops && ops[id].live && ops[id].record.batchId.None?
  }

  function Children(ops: Ops, root: OpId): (r: set<OpId>) {
    set id | id in ops && ops[id].live && ops[id].record.batchId == Some(root)
  }

  // ----- expiry -----

  function At(r: Record): (t: Time) {
    if r.finished.Some? then r.finished.value else r.created
  }

  predicate Expired(r: Record, now: Time) {
    !Busy(r.state) && now - At(r) > RETENTION
  }

  function ExpiredIds(ops: Ops, now: Time): (ids: set<OpId>) {
    set id | id in ops && Expired(ops[id].record, now)
  }

  // ----- submit -----

  datatype Request = Request(id: OpId, node: NodeId, keys: set<Key>, members: Option<seq<Member>>)

  predicate Repeated(ops: Ops, id: OpId, now: Time) {
    id in ops && !Expired(ops[id].record, now)
  }

  ghost predicate Conflicts(ops: Ops, keys: set<Key>) {
    exists id :: id in ops && ops[id].live && ops[id].keys * keys != {}
  }

  function Pruned(s: State, gone: set<OpId>): (r: State) {
    s.(ops := s.ops - gone, disk := s.disk - gone)
  }

  function Receipt(req: Request, now: Time): (r: Record) {
    Record(Running, now, None, None, req.node, req.members)
  }

  function Admitted(s: State, req: Request): (r: State) {
    s.(ops := s.ops[req.id := Op(Receipt(req, s.clock), req.keys, true, Going)],
       disk := s.disk[req.id := Receipt(req, s.clock)],
       log := s.log + [Exec(req.id, s.clock, None)])
  }

  /** Nothing conflicts and both limits leave room. */
  ghost predicate Admissible(ops: Ops, req: Request) {
    && !Conflicts(ops, req.keys)
    && |Roots(ops)| < OPERATION_LIMIT
    && (req.members.Some? || |Singles(ops)| < OPERATION_LIMIT)
  }

  /** `gone` is what pruning removed before it ended or failed; `saved` whether the receipt was written. */
  ghost function Submitted(s: State, req: Request, gone: set<OpId>, pruned: bool, saved: bool): (r: State) {
    if !s.up || s.closed || Repeated(s.ops, req.id, s.clock) then s
    else if pruned && Admissible(s.ops - gone, req) && saved then Admitted(Pruned(s, gone), req)
    else Pruned(s, gone)
  }

  // ----- a created node, cancellation, shutdown, completion -----

  function Bound(s: State, id: OpId, node: NodeId, saved: bool): (r: State)
    requires id in s.ops
  {
    var op := s.ops[id].(record := s.ops[id].record.(node := node), keys := s.ops[id].keys + {NodeKey(node)});
    s.(ops := s.ops[id := op], disk := if saved then s.disk[id := op.record] else s.disk)
  }

  /** The first cause stays; a batch root's cause reaches its children. */
  function Ended(op: Op, cause: Cause): (r: Op) {
    if op.live && op.cause == Going then op.(cause := cause) else op
  }

  function CancelState(op: Op): (r: Op) {
    op.(record := op.record.(state := Canceling))
  }

  function CanceledOps(ops: Ops, id: OpId): (r: Ops)
    requires id in ops
  {
    map i | i in ops :: if i == id then Ended(CancelState(ops[i]), CanceledByUser)
                        else if ops[i].record.batchId == Some(id) then Ended(ops[i], CanceledByUser) else ops[i]
  }

  function CancelRequested(s: State, id: OpId, saved: bool): (r: State)
    requires id in s.ops
  {
    if !s.ops[id].live || !saved then s
    else s.(ops := CanceledOps(s.ops, id), disk := s.disk[id := CancelState(s.ops[id]).record])
  }

  function ClosedOps(ops: Ops): (r: Ops) {
    map id | id in ops :: Ended(ops[id], Closed)
  }

  function ShutDown(s: State): (r: State) {
    s.(ops := ClosedOps(s.ops), closed := true)
  }

  /** The outcome of an operation: shutdown interrupts, a completed cancel cancels, else the error decides. */
  function Outcome(cause: Cause, failed: bool, stopFailed: bool): (s: Status) {
    if cause == Closed then Interrupted
    else if cause == CanceledByUser && !stopFailed then Canceled
    else if failed then Failed else Succeeded
  }

  function FinalRecord(op: Op, failed: bool, stopFailed: bool, now: Time): (r: Record) {
    op.record.(state := Outcome(op.cause, failed, stopFailed), finished := if op.cause == Closed then None else Some(now))
  }

  function Completed(s: State, id: OpId, failed: bool, stopFailed: bool, saved: bool): (r: State)
    requires id in s.ops
  {
    var record := FinalRecord(s.ops[id], failed, stopFailed, s.clock);
    var shown := if saved then record else record.(state := Failed);
    s.(ops := s.ops[id := s.ops[id].(record := shown, live := false)],
       disk := if saved then s.disk[id := record] else s.disk)
  }

  // ----- a batch tick -----

  /** A member follows its operation; one that never started ends with the batch's context. */
  function SyncedMember(m: Member, ops: Ops, cause: Cause): (r: Member) {
    if m.op in ops then m.(state := ops[m.op].record.state)
    else if m.state == Queued && cause != Going then m.(state := if cause == Closed then Interrupted else Canceled)
    else m
  }

  function SyncedMembers(ms: seq<Member>, ops: Ops, cause: Cause): (r: seq<Member>)
    ensures |r| == |ms| && forall i :: 0 <= i < |ms| ==> r[i] == SyncedMember(ms[i], ops, cause)
  {
    seq(|ms|, i requires 0 <= i < |ms| => SyncedMember(ms[i], ops, cause))
  }

  datatype Sched = Sched(ops: Ops, disk: Disk, ms: seq<Member>, running: nat, active: nat, log: seq<Exec>)

  function ChildReceipt(m: Member, root: OpId, now: Time): (r: Record) {
    Record(Running, now, None, Some(root), m.node, None)
  }

  function Child(m: Member, root: OpId, now: Time): (op: Op) {
    Op(ChildReceipt(m, root, now), {}, true, Going)
  }

  predicate Launches(x: Sched, i: nat)
    requires i < |x.ms|
  {
    x.ms[i].state == Queued && x.running < PARALLELISM && x.active < OPERATION_LIMIT
  }

  function FailedAt(x: Sched, i: nat): (r: Sched)
    requires i < |x.ms|
  {
    x.(ms := x.ms[i := x.ms[i].(state := Failed)])
  }

  function StartedAt(x: Sched, i: nat, root: OpId, now: Time): (r: Sched)
    requires i < |x.ms|
  {
    var m := x.ms[i];
    Sched(x.ops[m.op := Child(m, root, now)], x.disk[m.op := ChildReceipt(m, root, now)],
          x.ms[i := m.(state := Running)], x.running + 1, x.active + 1, x.log + [Exec(m.op, now, Some(root))])
  }

  /** One member of the launching pass; `saved` is whether its receipt could be written. */
  function LaunchAt(x: Sched, i: nat, root: OpId, now: Time, saved: bool): (r: Sched)
    requires i < |x.ms|
  {
    if !Launches(x, i) then x else if !saved then FailedAt(x, i) else StartedAt(x, i, root, now)
  }

  function LaunchTo(x: Sched, n: nat, root: OpId, now: Time, saves: seq<bool>): (r: Sched)
    requires n <= |x.ms| && n <= |saves|
    ensures |r.ms| == |x.ms|
  {
    if n == 0 then x else LaunchAt(LaunchTo(x, n - 1, root, now, saves), n - 1, root, now, saves[n - 1])
  }

  const BUSY: set<Status> := {Running, Canceling}
  const OPEN: set<Status> := {Queued, Running, Canceling}

  function Started(s: State, root: OpId, ms: seq<Member>): (x: Sched) {
    Sched(s.ops, s.disk, ms, Count(ms, BUSY), |Singles(s.ops)|, s.log)
  }

  function BatchOutcome(ms: seq<Member>, cause: Cause): (s: Status) {
    if cause == Closed then Interrupted
    else if cause == CanceledByUser then Canceled
    else if Count(ms, {Succeeded}) == |ms| then Succeeded else Failed
  }

  predicate Done(ms: seq<Member>) {
    Count(ms, {Queued}) + Count(ms, BUSY) == 0
  }

  function BatchRecord(op: Op, ms: seq<Member>, now: Time): (r: Record) {
    if Done(ms)
    then op.record.(members := Some(ms), state := BatchOutcome(ms, op.cause),
                    finished := if op.cause == Closed then None else Some(now))
    else op.record.(members := Some(ms))
  }

  function Concluded(s: State, root: OpId, y: Sched, saved: bool): (r: State)
    requires root in s.ops
  {
    var op := s.ops[root];
    var record := BatchRecord(op, y.ms, s.clock);
    var changed := op.record.members != Some(y.ms) || Done(y.ms);
    var shown := if changed && !saved && Done(y.ms) then record.(state := Failed) else record;
    s.(ops := y.ops[root := op.(record := shown, live := !Done(y.ms))],
       disk := if changed && saved then y.disk[root := record] else y.disk,
       log := y.log)
  }

  /** The tick's two passes over the members: follow their operations, then launch. */
  function Swept(s: State, root: OpId, saves: seq<bool>): (y: Sched)
    requires root in s.ops && s.ops[root].record.members.Some? && |saves| == |s.ops[root].record.members.value|
  {
    var op := s.ops[root];
    var ms := SyncedMembers(op.record.members.value, s.ops, op.cause);
    var x := Started(s, root, ms);
    if op.cause == Going then LaunchTo(x, |ms|, root, s.clock, saves) else x
  }

  function Ticked(s: State, root: OpId, saves: seq<bool>, saved: bool): (r: State)
    requires root in s.ops && s.ops[root].record.members.Some? && |saves| == |s.ops[root].record.members.value|
  {
    Concluded(s, root, Swept(s, root, saves), saved)
  }

  // ----- crash and recovery -----

  function Crashed(s: State): (r: State) {
    s.(ops := map[], up := false)
  }

  function MarkedRecord(r: Record): (t: Record) {
    if Busy(r.state) then r.(state := Interrupted, finished := None) else r
  }

  /** The receipts a restart keeps, none of them running. */
  function Marked(disk: Disk, now: Time): (r: Disk) {
    map id | id in disk && !Expired(disk[id], now) :: MarkedRecord(disk[id])
  }

  function RecoveredMember(m: Member, root: OpId, disk: Disk): (r: Member) {
    if m.op in disk && disk[m.op].batchId == Some(root) && disk[m.op].node == m.node then m.(state := disk[m.op].state)
    else if m.state in OPEN then m.(state := Interrupted)
    else m
  }

  function RecoveredMembers(ms: seq<Member>, root: OpId, disk: Disk): (r: seq<Member>)
    ensures |r| == |ms| && forall i :: 0 <= i < |ms| ==> r[i] == RecoveredMember(ms[i], root, disk)
  {
    seq(|ms|, i requires 0 <= i < |ms| => RecoveredMember(ms[i], root, disk))
  }

  function RecoveredRecord(r: Record, id: OpId, marked: Disk): (t: Record) {
    if r.members.Some? && r.state == Interrupted
    then r.(members := Some(RecoveredMembers(r.members.value, id, marked))) else r
  }

  function RecoveredDisk(disk: Disk, now: Time): (r: Disk) {
    var marked := Marked(disk, now);
    map id | id in marked :: RecoveredRecord(marked[id], id, marked)
  }

  function Loaded(disk: Disk): (r: Ops) {
    map id | id in disk :: Op(disk[id], {}, false, Going)
  }

  function Recovered(s: State): (r: State) {
    var disk := RecoveredDisk(s.disk, s.clock);
    s.(disk := disk, ops := Loaded(disk), up := true, closed := false)
  }

  /** A recovery cut short: some expired receipts removed, some marked, some batches reprojected. */
  function HalfRecovered(s: State, gone: set<OpId>, marked: set<OpId>, projected: set<OpId>): (r: State) {
    var full := RecoveredDisk(s.disk, s.clock);
    s.(disk := map id | id in s.disk && !(id in gone && Expired(s.disk[id], s.clock)) ::
                 if id in projected && id in full then full[id]
                 else if id in marked && id in full then MarkedRecord(s.disk[id]) else s.disk[id])
  }

  // ----- actions -----

  datatype Action =
    | Wait(to: Time)
    | Submit(req: Request, gone: set<OpId>, pruned: bool, saved: bool)
    | Bind(id: OpId, node: NodeId, saved: bool)
    | Cancel(id: OpId, saved: bool)
    | Close
    | Complete(id: OpId, failed: bool, stopFailed: bool, saved: bool)
    | Tick(root: OpId, saves: seq<bool>, saved: bool)
    | Crash
    | HalfRecover(gone: set<OpId>, marked: set<OpId>, projected: set<OpId>)
    | Recover

  /** Every node key comes with the key of that node's name. */
  ghost predicate Paired(keys: set<Key>, names: NodeId -> Name) {
    forall n :: NodeKey(n) in keys ==> NameKey(names(n)) in keys
  }

  /** A request as normalization and batch preparation build it; member IDs are newly generated. */
  ghost predicate WellFormed(s: State, req: Request, names: NodeId -> Name) {
    && Paired(req.keys, names)
    && (req.members.Some? ==>
          var ms := req.members.value;
          && DistinctNodes(ms) && DistinctOps(ms)
          && (forall m :: m in ms ==> m.state == Queued && m.op != req.id && NodeKey(m.node) in req.keys)
          && (forall m, e :: m in ms && e in s.log ==> e.id != m.op))
  }

  ghost predicate Enabled(s: State, a: Action, names: NodeId -> Name) {
    match a
    case Wait(to) => to >= s.clock
    case Submit(req, gone, pruned, saved) =>
      && WellFormed(s, req, names) && gone <= ExpiredIds(s.ops, s.clock)
      && (pruned ==> gone == ExpiredIds(s.ops, s.clock))
    case Bind(id, node, saved) =>
      && id in s.ops && s.ops[id].live && s.ops[id].record.members.None? && s.ops[id].record.batchId.None?
      && NameKey(names(node)) in s.ops[id].keys
    case Cancel(id, saved) => id in s.ops
    case Complete(id, failed, stopFailed, saved) => id in s.ops && s.ops[id].live && s.ops[id].record.members.None?
    case Tick(root, saves, saved) =>
      && root in s.ops && s.ops[root].live && s.ops[root].record.members.Some?
      && |saves| == |s.ops[root].record.members.value|
    case HalfRecover(_, _, _) => !s.up
    case Recover => !s.up
    case _ => true
  }

  ghost function Step(s: State, a: Action, names: NodeId -> Name): (r: State)
    requires Enabled(s, a, names)
  {
    match a
    case Wait(to) => s.(clock := to)
    case Submit(req, gone, pruned, saved) => Submitted(s, req, gone, pruned, saved)
    case Bind(id, node, saved) => Bound(s, id, node, saved)
    case Cancel(id, saved) => CancelRequested(s, id, saved)
    case Close => ShutDown(s)
    case Complete(id, failed, stopFailed, saved) => Completed(s, id, failed, stopFailed, saved)
    case Tick(root, saves, saved) => Ticked(s, root, saves, saved)
    case Crash => Crashed(s)
    case HalfRecover(gone, marked, projected) => HalfRecovered(s, gone, marked, projected)
    case Recover => Recovered(s)
  }

  ghost predicate Runs(s: State, acts: seq<Action>, end: State, names: NodeId -> Name)
    decreases |acts|
  {
    if acts == [] then end == s
    else
      var n := |acts| - 1;
      exists mid :: Runs(s, acts[..n], mid, names) && Enabled(mid, acts[n], names) && end == Step(mid, acts[n], names)
  }

  const EMPTY: State := State(map[], map[], [], 0, true, false)
}
