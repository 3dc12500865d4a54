/** A run that shows why a receipt is tied to its batch only while the batch's ID is not used again. */
module NodeWitnesses {
  import opened Wrappers
  import opened NodeBatch
  import opened NodeOperations
  import opened NodeSafety

  lemma Extend(acts: seq<Action>, mid: State, a: Action, names: Names)
    requires Runs(EMPTY, acts, mid, names) && Enabled(mid, a, names)
    ensures Runs(EMPTY, acts + [a], Step(mid, a, names), names)
  {
    assert (acts + [a])[..|acts|] == acts;
  }

  const CHILD: OpId := 2
  const ROOT: OpId := 1
  const LATER: Time := 10

  function Members(names: Names): (ms: seq<Member>) {
    [Member(5, names(5), CHILD, Queued)]
  }

  function KeysFor(names: Names): (keys: set<Key>) {
    {NodeKey(5), NameKey(names(5))}
  }

  function BatchReceipt(state: Status, member: Status, names: Names): (r: Record) {
    Record(state, 0, None, None, 0, Some([Member(5, names(5), CHILD, member)]))
  }

  function ChildRecord(state: Status): (r: Record) {
    Record(state, LATER, None, Some(ROOT), 5, None)
  }

  /** A batch of one node whose child was launched some time after the batch was admitted. */
  function Launched(names: Names): (s: State) {
    State(map[ROOT := Op(BatchReceipt(Running, Running, names), KeysFor(names), true, Going),
              CHILD := Op(ChildRecord(Running), {}, true, Going)],
          map[ROOT := BatchReceipt(Running, Running, names), CHILD := ChildRecord(Running)],
          [Exec(ROOT, 0, None), Exec(CHILD, LATER, Some(ROOT))], LATER, true, false)
  }

  function Submission(names: Names): (s: State) {
    State(map[ROOT := Op(BatchReceipt(Running, Queued, names), KeysFor(names), true, Going)],
          map[ROOT := BatchReceipt(Running, Queued, names)], [Exec(ROOT, 0, None)], 0, true, false)
  }

  lemma ReachSubmission(names: Names) returns (acts: seq<Action>)
    ensures Runs(EMPTY, acts, Submission(names), names)
  {
    var req := Request(ROOT, 0, KeysFor(names), Some(Members(names)));
    assert ExpiredIds(map[], 0) == {};
    BatchWellFormed(names);
    Extend([], EMPTY, Submit(req, {}, true, true), names);
    acts := [] + [Submit(req, {}, true, true)];
    BatchAdmitted(req, names);
  }

  lemma BatchWellFormed(names: Names)
    ensures WellFormed(EMPTY, Request(ROOT, 0, KeysFor(names), Some(Members(names))), names)
  {
  }

  lemma BatchAdmitted(req: Request, names: Names)
    requires req == Request(ROOT, 0, KeysFor(names), Some(Members(names)))
    ensures Submitted(EMPTY, req, {}, true, true) == Submission(names)
  {
    assert Roots(map[]) == {};
    assert Pruned(EMPTY, {}) == EMPTY;
  }

  lemma LaunchesChild(names: Names)
    ensures var s := Submission(names).(clock := LATER);
            Ticked(s, ROOT, [true], true) == Launched(names)
  {
    var s := Submission(names).(clock := LATER);
    var ms := Members(names);
    assert SyncedMembers(ms, s.ops, Going) == ms;
    assert Singles(s.ops) == {};
    assert ms[..0] == [] && Count(ms[..0], BUSY) == 0;
    var x := Started(s, ROOT, ms);
    assert Launches(x, 0);
    assert LaunchTo(x, 1, ROOT, LATER, [true]) == StartedAt(x, 0, ROOT, LATER);
    GoesOn(s, StartedAt(x, 0, ROOT, LATER), names);
  }

  lemma GoesOn(s: State, y: Sched, names: Names)
    requires s == Submission(names).(clock := LATER) && y == StartedAt(Started(s, ROOT, Members(names)), 0, ROOT, LATER)
    ensures Concluded(s, ROOT, y, true) == Launched(names)
  {
    assert y.ms == [Member(5, names(5), CHILD, Running)] && y.ms[..0] == [];
    assert !Done(y.ms);
  }

  lemma ReachLaunched(names: Names) returns (acts: seq<Action>)
    ensures Runs(EMPTY, acts, Launched(names), names)
  {
    acts := ReachSubmission(names);
    Extend(acts, Submission(names), Wait(LATER), names);
    acts := acts + [Wait(LATER)];
    var s := Submission(names).(clock := LATER);
    Extend(acts, s, Tick(ROOT, [true], true), names);
    acts := acts + [Tick(ROOT, [true], true)];
    LaunchesChild(names);
  }

  /** After a crash both receipts say interrupted; the batch's is dated by its admission, the child's by its launch. */
  function Interruption(names: Names): (s: State) {
    var disk := map[ROOT := BatchReceipt(Interrupted, Interrupted, names), CHILD := ChildRecord(Interrupted)];
    State(map[ROOT := Op(disk[ROOT], {}, false, Going), CHILD := Op(disk[CHILD], {}, false, Going)],
          disk, [Exec(ROOT, 0, None), Exec(CHILD, LATER, Some(ROOT))], LATER, true, false)
  }

  lemma RecoversAs(names: Names)
    ensures Recovered(Crashed(Launched(names))) == Interruption(names)
  {
    var s := Launched(names);
    var marked := Marked(s.disk, s.clock);
    assert marked == map[ROOT := BatchReceipt(Interrupted, Running, names), CHILD := ChildRecord(Interrupted)];
    assert RecoveredMembers(marked[ROOT].members.value, ROOT, marked) == [Member(5, names(5), CHILD, Interrupted)];
  }

  lemma ReachInterruption(names: Names) returns (acts: seq<Action>)
    ensures Runs(EMPTY, acts, Interruption(names), names)
  {
    acts := ReachLaunched(names);
    Extend(acts, Launched(names), Crash, names);
    acts := acts + [Crash];
    Extend(acts, Crashed(Launched(names)), Recover, names);
    acts := acts + [Recover];
    RecoversAs(names);
  }

  /**
    A batch interrupted by a crash expires before its children do. Its ID may then be used for
    another operation, whose receipt does not name the child receipts that are still retained.
    */
  lemma ReusedRootForgets(names: Names) returns (acts: seq<Action>, end: State)
    ensures Runs(EMPTY, acts, end, names)
    ensures CHILD in end.disk && end.disk[CHILD].batchId == Some(ROOT) && !Expired(end.disk[CHILD], end.clock)
    ensures ROOT in end.disk && end.disk[ROOT].members.None?
  {
    acts := ReachInterruption(names);
    var to := RETENTION + 5;
    Extend(acts, Interruption(names), Wait(to), names);
    acts := acts + [Wait(to)];
    var s := Interruption(names).(clock := to);
    var req := Request(ROOT, 6, {NameKey(names(6))}, None);
    RootExpires(s, names);
    Extend(acts, s, Submit(req, {ROOT}, true, true), names);
    acts := acts + [Submit(req, {ROOT}, true, true)];
    end := Submitted(s, req, {ROOT}, true, true);
    Reuse(s, req, names);
  }

  lemma RootExpires(s: State, names: Names)
    requires s == Interruption(names).(clock := RETENTION + 5)
    ensures ExpiredIds(s.ops, s.clock) == {ROOT} && !Expired(s.disk[CHILD], s.clock)
  {
  }

  lemma Reuse(s: State, req: Request, names: Names)
    requires s == Interruption(names).(clock := RETENTION + 5) && req == Request(ROOT, 6, {NameKey(names(6))}, None)
    ensures Submitted(s, req, {ROOT}, true, true) == Admitted(Pruned(s, {ROOT}), req)
  {
    assert Roots(s.ops - {ROOT}) == {} && Singles(s.ops - {ROOT}) == {};
  }
}
