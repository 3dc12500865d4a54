/**
  The supervisor's link to a serial renderer worker: which outstanding request the
  worker is executing, and the deadline it is held to.
  */
module SupervisorLink {

  type Time = nat
  type Id = nat

  const READ_FACTOR: nat := 4

  /** Probe is a health check nobody waits for; Slow is read, checkpoint or interact; Init has its caller's deadline. */
  datatype Method = Probe | Slow | Init(deadline: Time) | Other

  /** `order` is the place in the dispatch sequence, 0 while still queued. */
  datatype Pending = Pending(startedAt: Time, deadline: Time, budget: nat, order: nat)

  type Table = map<Id, Pending>

  datatype State = State(pending: Table, dispatched: nat)

  // ----- the active request -----

  ghost predicate IsActive(pending: Table, id: Id) {
    && id in pending && pending[id].order != 0
    && forall j :: j in pending && pending[j].order != 0 && j != id ==> pending[id].order < pending[j].order
  }

  ghost predicate AnyDispatched(pending: Table) {
    exists id :: id in pending && pending[id].order != 0
  }

  function Budget(m: Method, now: Time, timeout: nat): (b: nat) {
    match m
    case Slow => timeout * READ_FACTOR
    case Init(deadline) => if deadline >= now then deadline - now else 0
    case _ => timeout
  }

  function Admission(m: Method, now: Time, timeout: nat): (p: Pending) {
    Pending(now, if m.Init? then m.deadline else now + Budget(m, now, timeout), Budget(m, now, timeout), 0)
  }

  /** Orders are distinct and were all handed out. */
  ghost predicate Ordered(s: State) {
    && (forall i :: i in s.pending ==> i != 0 && s.pending[i].order <= s.dispatched)
    && (forall i, j :: i in s.pending && j in s.pending && i != j && s.pending[i].order != 0 ==> s.pending[i].order != s.pending[j].order)
  }

  // ----- the steps -----

  /** A probe is dropped behind any outstanding request; a full or closed queue admits nothing. */
  function Enqueued(s: State, id: Id, m: Method, now: Time, timeout: nat, room: bool): (r: State) {
    if (m.Probe? && s.pending != map[]) || !room then s
    else s.(pending := s.pending[id := Admission(m, now, timeout)])
  }

  ghost function Dispatched(s: State, id: Id, now: Time): (r: State) {
    if id !in s.pending then s
    else
      var p := s.pending[id].(order := s.dispatched + 1);
      var q := if AnyDispatched(s.pending) then p else p.(deadline := now + p.budget);
      s.(pending := s.pending[id := q], dispatched := s.dispatched + 1)
  }

  function Rebased(pending: Table, id: Id, now: Time): (r: Table)
    requires id in pending
  {
    pending[id := pending[id].(deadline := now + pending[id].budget)]
  }

  ghost function Replied(s: State, id: Id, now: Time): (r: State) {
    var left := s.pending - {id};
    if IsActive(s.pending, id) && exists j :: IsActive(left, j) then
      var j :| IsActive(left, j);
      s.(pending := Rebased(left, j, now))
    else s.(pending := left)
  }

  class Link {
    var pending: Table
    var dispatched: nat
    const timeout: nat

    ghost function Value(): (s: State)
      reads this
    {
      State(pending, dispatched)
    }

    method EnqueueDeadline(id: Id, m: Method, now: Time, room: bool)
      requires id != 0 && id !in pending
      modifies this
      ensures Value() == Enqueued(old(Value()), id, m, now, timeout, room)
    {
      if m == Probe && |pending| > 0 {
        return;
      }
      var budget := timeout;
      if m == Slow {
        budget := budget * READ_FACTOR;
      }
      var deadline := now + budget;
      if m.Init? {
        deadline := m.deadline;
        budget := if deadline >= now then deadline - now else 0;
      }
      var was := pending;
      pending := pending[id := Pending(now, deadline, budget, 0)];
      if !room {
        pending := pending - {id};
        assert pending == was;
      }
    }

    /** A scan of the table in any order: 0 when nothing has been dispatched. */
    method ActivePending() returns (id: Id)
      requires Ordered(Value())
      ensures if AnyDispatched(pending) then IsActive(pending, id) else id == 0
    {
      id := 0;
      var ids := pending.Keys;
      while ids != {}
        invariant ids <= pending.Keys
        invariant id == 0 ==> forall j :: j in pending && j !in ids ==> pending[j].order == 0
        invariant id != 0 ==> id in pending && pending[id].order != 0
        invariant id != 0 ==> forall j :: j in pending && j !in ids && pending[j].order != 0 && j != id ==>
                    pending[id].order < pending[j].order
      {
        var j :| j in ids;
        if pending[j].order != 0 && (id == 0 || pending[j].order < pending[id].order) {
          id := j;
        }
        ids := ids - {j};
      }
    }

    method MarkDispatched(id: Id, now: Time)
      requires Ordered(Value())
      modifies this
      ensures Value() == Dispatched(old(Value()), id, now)
    {
      if id !in pending {
        return;
      }
      var active := ActivePending();
      dispatched := dispatched + 1;
      var p := pending[id].(order := dispatched);
      if active == 0 {
        p := p.(deadline := now + p.budget);
      }
      pending := pending[id := p];
    }

    method CompletePending(id: Id, now: Time)
      requires Ordered(Value())
      modifies this
      ensures Value() == Replied(old(Value()), id, now)
    {
      var active := ActivePending();
      ghost var was := pending;
      pending := pending - {id};
      if active != 0 && active == id {
        var following := ActivePending();
        if following != 0 {
          pending := pending[following := pending[following].(deadline := now + pending[following].budget)];
        }
      }
    }

    /** The request to blame, 0 for none. */
    method HealthError(now: Time) returns (blamed: Id)
      requires Ordered(Value())
      ensures AnyDispatched(pending) ==>
                (blamed != 0 <==> exists id :: IsActive(pending, id) && now >= pending[id].deadline)
      ensures !AnyDispatched(pending) ==>
                (blamed != 0 <==> exists id :: id in pending && now >= pending[id].deadline)
      ensures blamed != 0 ==> blamed in pending && now >= pending[blamed].deadline
      ensures blamed != 0 && AnyDispatched(pending) ==> IsActive(pending, blamed)
    {
      blamed := 0;
      var active := ActivePending();
      if active != 0 {
        if now >= pending[active].deadline {
          blamed := active;
        }
        return;
      }
      var ids := pending.Keys;
      while ids != {}
        invariant ids <= pending.Keys
        invariant forall id :: id in pending && id !in ids ==> now < pending[id].deadline
      {
        var id :| id in ids;
        if now >= pending[id].deadline {
          blamed := id;
          return;
        }
        ids := ids - {id};
      }
    }
  }

  // ----- runs -----

  /**
    The link with what happened on it: the requests in the order they went over the wire,
    and the instant since which the first outstanding one of them has been first.
    */
  datatype Traced = Traced(s: State, wire: seq<Id>, used: set<Id>, since: Time, clock: Time)

  const START: Traced := Traced(State(map[], 0), [], {}, 0, 0)

  /** The first request on the wire that has not been answered; 0 for none. */
  function FirstOut(wire: seq<Id>, pending: Table): (id: Id) {
    if wire == [] then 0 else if wire[0] in pending then wire[0] else FirstOut(wire[1..], pending)
  }

  datatype Action =
    | Enqueue(id: Id, how: Method, timeout: nat, room: bool)
    | Dispatch(id: Id)
    | Reply(id: Id)

  /** Request IDs are not reused, and a frame is written once. */
  ghost predicate Enabled(t: Traced, a: Action, now: Time) {
    now >= t.clock &&
    match a
    case Enqueue(id, _, _, _) => id != 0 && id !in t.used
    case Dispatch(id) => id in t.s.pending ==> t.s.pending[id].order == 0
    case Reply(_) => true
  }

  ghost function After(s: State, a: Action, now: Time): (r: State) {
    match a
    case Enqueue(id, m, timeout, room) => Enqueued(s, id, m, now, timeout, room)
    case Dispatch(id) => Dispatched(s, id, now)
    case Reply(id) => Replied(s, id, now)
  }

  function WireAfter(t: Traced, a: Action): (w: seq<Id>) {
    if a.Dispatch? && a.id in t.s.pending then t.wire + [a.id] else t.wire
  }

  ghost function Step(t: Traced, a: Action, now: Time): (r: Traced) {
    var s, wire := After(t.s, a, now), WireAfter(t, a);
    var same := FirstOut(wire, s.pending) == FirstOut(t.wire, t.s.pending);
    Traced(s, wire, if a.Enqueue? then t.used + {a.id} else t.used, if same then t.since else now, now)
  }

  datatype Timed = Timed(act: Action, now: Time)

  ghost predicate Runs(acts: seq<Timed>, end: Traced)
    decreases |acts|
  {
    if acts == [] then end == START
    else
      var n := |acts| - 1;
      exists mid :: Runs(acts[..n], mid) && Enabled(mid, acts[n].act, acts[n].now) && end == Step(mid, acts[n].act, acts[n].now)
  }

  // ----- orders follow the wire -----

  /** A request's order is its place on the wire. */
  ghost predicate OnWire(t: Traced) {
    && |t.wire| == t.s.dispatched
    && (forall id :: id in t.s.pending ==> id != 0 && id in t.used && t.s.pending[id].order <= |t.wire|)
    && (forall id :: id in t.s.pending && t.s.pending[id].order != 0 ==> t.wire[t.s.pending[id].order - 1] == id)
    && (forall id :: id in t.s.pending && t.s.pending[id].order == 0 ==> id !in t.wire)
    && (forall id :: id in t.wire ==> id in t.used)
    && (forall i, j :: 0 <= i < j < |t.wire| ==> t.wire[i] != t.wire[j])
  }

  lemma ReplyLeaves(s: State, id: Id, now: Time)
    ensures Replied(s, id, now).dispatched == s.dispatched
    ensures Replied(s, id, now).pending.Keys == s.pending.Keys - {id}
    ensures forall j :: j in s.pending && j != id ==>
              Replied(s, id, now).pending[j] == s.pending[j].(deadline := Replied(s, id, now).pending[j].deadline)
  {
  }

  lemma ReplyOrders(s: State, id: Id, now: Time)
    ensures Replied(s, id, now).dispatched == s.dispatched
    ensures forall j :: j in Replied(s, id, now).pending ==>
              j in s.pending && Replied(s, id, now).pending[j].order == s.pending[j].order
  {
    ReplyLeaves(s, id, now);
  }

  lemma EnqueueOnWire(t: Traced, id: Id, m: Method, timeout: nat, room: bool, now: Time)
    requires OnWire(t) && Enabled(t, Enqueue(id, m, timeout, room), now)
    ensures OnWire(Step(t, Enqueue(id, m, timeout, room), now))
  {
  }

  lemma DispatchOnWire(t: Traced, id: Id, now: Time)
    requires OnWire(t) && Enabled(t, Dispatch(id), now)
    ensures OnWire(Step(t, Dispatch(id), now))
  {
  }

  lemma ReplyOnWire(t: Traced, id: Id, now: Time)
    requires OnWire(t)
    ensures OnWire(Step(t, Reply(id), now))
  {
    ReplyOrders(t.s, id, now);
  }

  lemma StepOnWire(t: Traced, a: Action, now: Time)
    requires OnWire(t) && Enabled(t, a, now)
    ensures OnWire(Step(t, a, now))
  {
    match a
    case Enqueue(id, m, timeout, room) => EnqueueOnWire(t, id, m, timeout, room, now);
    case Dispatch(id) => DispatchOnWire(t, id, now);
    case Reply(id) => ReplyOnWire(t, id, now);
  }

  // ----- the active request is the first on the wire -----

  lemma {:induction false} FirstOutIs(wire: seq<Id>, pending: Table)
    requires forall id :: id in pending ==> id != 0
    ensures var f := FirstOut(wire, pending);
            if exists id :: id in wire && id in pending
            then exists i :: 0 <= i < |wire| && wire[i] == f && f in pending && forall j :: 0 <= j < i ==> wire[j] !in pending
            else f == 0
  {
    if wire != [] {
      assert wire == [wire[0]] + wire[1..];
      if wire[0] !in pending {
        FirstOutIs(wire[1..], pending);
        if id :| id in wire && id in pending {
          assert id in wire[1..];
          var f := FirstOut(wire, pending);
          var i :| 0 <= i < |wire[1..]| && wire[1..][i] == f && forall j :: 0 <= j < i ==> wire[1..][j] !in pending;
          assert wire[i + 1] == f;
          assert forall j :: 1 <= j < i + 1 ==> wire[j] == wire[1..][j - 1];
        }
      }
    }
  }

  /** The scan's choice, the least dispatch order, is the first unanswered request on the wire. */
  lemma ActiveIsFirst(t: Traced)
    requires OnWire(t)
    ensures var f := FirstOut(t.wire, t.s.pending); if AnyDispatched(t.s.pending) then IsActive(t.s.pending, f) else f == 0
  {
    var pending := t.s.pending;
    FirstOutIs(t.wire, pending);
    forall id | id in pending ensures id in t.wire <==> pending[id].order != 0 {
    }
    var f := FirstOut(t.wire, pending);
    if AnyDispatched(pending) {
      var i :| 0 <= i < |t.wire| && t.wire[i] == f && f in pending && forall j :: 0 <= j < i ==> t.wire[j] !in pending;
      assert pending[f].order == i + 1;
      forall j | j in pending && pending[j].order != 0 && j != f ensures pending[f].order < pending[j].order {
        assert t.wire[pending[j].order - 1] == j;
      }
    }
  }

  lemma ActiveIsUnique(pending: Table, a: Id, b: Id)
    requires IsActive(pending, a) && IsActive(pending, b)
    ensures a == b
  {
  }

  // ----- its deadline -----

  ghost predicate Timely(t: Traced) {
    forall f :: IsActive(t.s.pending, f) ==> t.s.pending[f].deadline == t.since + t.s.pending[f].budget
  }

  lemma EnqueueTimely(t: Traced, id: Id, m: Method, timeout: nat, room: bool, now: Time)
    requires OnWire(t) && Timely(t) && Enabled(t, Enqueue(id, m, timeout, room), now)
    ensures Timely(Step(t, Enqueue(id, m, timeout, room), now))
  {
    var a := Enqueue(id, m, timeout, room);
    var r := Step(t, a, now);
    StepOnWire(t, a, now);
    ActiveIsFirst(t);
    ActiveIsFirst(r);
    forall f | IsActive(r.s.pending, f) ensures r.s.pending[f].deadline == r.since + r.s.pending[f].budget {
      assert IsActive(t.s.pending, f);
      ActiveIsUnique(t.s.pending, f, FirstOut(t.wire, t.s.pending));
      ActiveIsUnique(r.s.pending, f, FirstOut(r.wire, r.s.pending));
    }
  }

  lemma DispatchTimely(t: Traced, id: Id, now: Time)
    requires OnWire(t) && Timely(t) && Enabled(t, Dispatch(id), now)
    ensures Timely(Step(t, Dispatch(id), now))
  {
    var r := Step(t, Dispatch(id), now);
    StepOnWire(t, Dispatch(id), now);
    ActiveIsFirst(t);
    ActiveIsFirst(r);
    forall f | IsActive(r.s.pending, f) ensures r.s.pending[f].deadline == r.since + r.s.pending[f].budget {
      ActiveIsUnique(r.s.pending, f, FirstOut(r.wire, r.s.pending));
      if AnyDispatched(t.s.pending) {
        var g := FirstOut(t.wire, t.s.pending);
        assert IsActive(r.s.pending, g);
        ActiveIsUnique(r.s.pending, f, g);
      } else {
        assert id in t.s.pending && f == id;
      }
    }
  }

  lemma ReplyOfActive(s: State, id: Id, now: Time, f: Id)
    requires IsActive(s.pending, id) && IsActive(Replied(s, id, now).pending, f)
    ensures f != id && Replied(s, id, now).pending[f].deadline == now + Replied(s, id, now).pending[f].budget
  {
    var left, r := s.pending - {id}, Replied(s, id, now);
    ReplyLeaves(s, id, now);
    assert IsActive(left, f) by {
      forall j | j in left && left[j].order != 0 && j != f ensures left[f].order < left[j].order {
        assert r.pending[j].order == left[j].order;
      }
    }
    var j :| IsActive(left, j) && r.pending == Rebased(left, j, now);
    ActiveIsUnique(left, j, f);
  }

  lemma ReplyOfOther(s: State, id: Id, now: Time, f: Id)
    requires !IsActive(s.pending, id) && IsActive(s.pending, f)
    ensures IsActive(Replied(s, id, now).pending, f) && Replied(s, id, now).pending[f] == s.pending[f]
  {
  }

  lemma ReplyTimely(t: Traced, id: Id, now: Time)
    requires OnWire(t) && Timely(t) && Enabled(t, Reply(id), now)
    ensures Timely(Step(t, Reply(id), now))
  {
    var r := Step(t, Reply(id), now);
    StepOnWire(t, Reply(id), now);
    ActiveIsFirst(t);
    ActiveIsFirst(r);
    var g := FirstOut(t.wire, t.s.pending);
    forall f | IsActive(r.s.pending, f) ensures r.s.pending[f].deadline == r.since + r.s.pending[f].budget {
      ActiveIsUnique(r.s.pending, f, FirstOut(r.wire, r.s.pending));
      if IsActive(t.s.pending, id) {
        ActiveIsUnique(t.s.pending, id, g);
        ReplyOfActive(t.s, id, now, f);
      } else {
        assert AnyDispatched(t.s.pending) by {
          ReplyLeaves(t.s, id, now);
          assert f in t.s.pending;
        }
        ReplyOfOther(t.s, id, now, g);
        ActiveIsUnique(r.s.pending, f, g);
      }
    }
  }

  lemma StepTimely(t: Traced, a: Action, now: Time)
    requires OnWire(t) && Timely(t) && Enabled(t, a, now)
    ensures Timely(Step(t, a, now))
  {
    match a
    case Enqueue(id, m, timeout, room) => EnqueueTimely(t, id, m, timeout, room, now);
    case Dispatch(id) => DispatchTimely(t, id, now);
    case Reply(id) => ReplyTimely(t, id, now);
  }

  lemma {:induction false} RunTimely(acts: seq<Timed>, end: Traced)
    requires Runs(acts, end)
    ensures OnWire(end) && Timely(end) && end.since <= end.clock
    decreases |acts|
  {
    if acts != [] {
      var n := |acts| - 1;
      var mid :| Runs(acts[..n], mid) && Enabled(mid, acts[n].act, acts[n].now) && end == Step(mid, acts[n].act, acts[n].now);
      RunTimely(acts[..n], mid);
      StepOnWire(mid, acts[n].act, acts[n].now);
      StepTimely(mid, acts[n].act, acts[n].now);
    }
  }

  /**
    In every run the request held to account is the first unanswered one on the wire, from
    the instant it became so: it is overdue exactly when its whole budget has passed since.
    */
  lemma BlameIsExact(acts: seq<Timed>, end: Traced, active: Id, now: Time)
    requires Runs(acts, end) && IsActive(end.s.pending, active)
    ensures active == FirstOut(end.wire, end.s.pending)
    ensures now >= end.s.pending[active].deadline <==> now - end.since >= end.s.pending[active].budget
  {
    RunTimely(acts, end);
    ActiveIsFirst(end);
    ActiveIsUnique(end.s.pending, active, FirstOut(end.wire, end.s.pending));
  }

  lemma ActiveStays(t: Traced, a: Action, now: Time, active: Id)
    requires OnWire(t) && Enabled(t, a, now) && IsActive(t.s.pending, active) && a != Reply(active)
    ensures IsActive(After(t.s, a, now).pending, active) && After(t.s, a, now).pending[active] == t.s.pending[active]
  {
    match a
    case Enqueue(id, m, timeout, room) =>
    case Dispatch(id) =>
    case Reply(id) =>
      NotActive(t.s.pending, active, id);
      ReplyOfOther(t.s, id, now, active);
  }

  /** Nothing but its own answer moves the active request or its deadline. */
  lemma DeadlineStays(acts: seq<Timed>, t: Traced, a: Action, now: Time, active: Id)
    requires Runs(acts, t) && Enabled(t, a, now) && IsActive(t.s.pending, active) && a != Reply(active)
    ensures IsActive(Step(t, a, now).s.pending, active)
    ensures Step(t, a, now).s.pending[active] == t.s.pending[active]
    ensures Step(t, a, now).since == t.since
  {
    RunTimely(acts, t);
    ActiveStays(t, a, now, active);
    var r := Step(t, a, now);
    StepOnWire(t, a, now);
    FirstIsActive(t, active);
    FirstIsActive(r, active);
  }

  lemma FirstIsActive(t: Traced, active: Id)
    requires OnWire(t) && IsActive(t.s.pending, active)
    ensures active == FirstOut(t.wire, t.s.pending)
  {
    ActiveIsFirst(t);
    ActiveIsUnique(t.s.pending, active, FirstOut(t.wire, t.s.pending));
  }

  lemma NotActive(pending: Table, active: Id, id: Id)
    requires IsActive(pending, active) && id != active
    ensures !IsActive(pending, id)
  {
  }

  // ----- the budget is the method's -----

  /** Four timeouts for a read, checkpoint or interact, what is left of the caller's deadline for an init, else one timeout. */
  function Allowance(m: Method, timeout: nat, at: Time): (b: int) {
    match m
    case Slow => 4 * timeout
    case Init(deadline) => if deadline < at then 0 else deadline - at
    case Probe => timeout
    case Other => timeout
  }

  /** This step admitted the request, with its method's budget. */
  ghost predicate AdmittedBy(step: Timed, id: Id, p: Pending) {
    && step.act.Enqueue? && step.act.id == id && step.act.room
    && p.startedAt == step.now && p.budget == Allowance(step.act.how, step.act.timeout, step.now)
    && (p.order == 0 ==> p.deadline == if step.act.how.Init? then step.act.how.deadline else step.now + p.budget)
  }

  ghost predicate Admitted(acts: seq<Timed>, id: Id, p: Pending) {
    exists k :: 0 <= k < |acts| && AdmittedBy(acts[k], id, p)
  }

  /** Only a dispatch or becoming first changes a deadline. */
  predicate SameRequest(p: Pending, q: Pending) {
    q.startedAt == p.startedAt && q.budget == p.budget && (q.order == 0 ==> q == p)
  }

  lemma AdmittedStays(acts: seq<Timed>, step: Timed, id: Id, p: Pending, q: Pending)
    requires Admitted(acts, id, p) && SameRequest(p, q)
    ensures Admitted(acts + [step], id, q)
  {
    var k :| 0 <= k < |acts| && AdmittedBy(acts[k], id, p);
    assert AdmittedBy((acts + [step])[k], id, q);
  }

  lemma StepAdmits(t: Traced, a: Action, now: Time, id: Id)
    requires id in After(t.s, a, now).pending
    ensures var q := After(t.s, a, now).pending[id];
            || AdmittedBy(Timed(a, now), id, q)
            || (id in t.s.pending && SameRequest(t.s.pending[id], q))
  {
    if a.Reply? {
      ReplyLeaves(t.s, a.id, now);
    }
  }

  lemma {:induction false} AllAdmitted(acts: seq<Timed>, end: Traced, id: Id)
    requires Runs(acts, end) && id in end.s.pending
    ensures Admitted(acts, id, end.s.pending[id])
    decreases |acts|
  {
    if acts != [] {
      var n := |acts| - 1;
      var mid :| Runs(acts[..n], mid) && Enabled(mid, acts[n].act, acts[n].now) && end == Step(mid, acts[n].act, acts[n].now);
      StepAdmits(mid, acts[n].act, acts[n].now, id);
      assert acts == acts[..n] + [acts[n]] && acts[n] == Timed(acts[n].act, acts[n].now);
      if AdmittedBy(acts[n], id, end.s.pending[id]) {
        assert AdmittedBy(acts[n], id, end.s.pending[id]);
      } else {
        AllAdmitted(acts[..n], mid, id);
        AdmittedStays(acts[..n], acts[n], id, mid.s.pending[id], end.s.pending[id]);
      }
    }
  }

  /** In every run, the active request is overdue if and only if its method's time has passed since it became first on the wire. */
  lemma BlameByMethod(acts: seq<Timed>, end: Traced, id: Id, now: Time) returns (k: nat)
    requires Runs(acts, end) && IsActive(end.s.pending, id)
    ensures k < |acts| && acts[k].act.Enqueue? && acts[k].act.id == id
    ensures now >= end.s.pending[id].deadline <==>
            now - end.since >= Allowance(acts[k].act.how, acts[k].act.timeout, acts[k].now)
  {
    RunTimely(acts, end);
    AllAdmitted(acts, end, id);
    k :| 0 <= k < |acts| && AdmittedBy(acts[k], id, end.s.pending[id]);
  }

  /** A request nobody has dispatched is held to its own deadline, the caller's for an init. */
  lemma QueuedDeadline(acts: seq<Timed>, end: Traced, id: Id) returns (k: nat)
    requires Runs(acts, end) && id in end.s.pending && end.s.pending[id].order == 0
    ensures k < |acts| && acts[k].act.Enqueue? && acts[k].act.id == id
    ensures var how := acts[k].act.how;
            end.s.pending[id].deadline == if how.Init? then how.deadline else acts[k].now + Allowance(how, acts[k].act.timeout, acts[k].now)
  {
    AllAdmitted(acts, end, id);
    k :| 0 <= k < |acts| && AdmittedBy(acts[k], id, end.s.pending[id]);
  }

  /** In every run, a request is admitted if and only if there is room and it is no probe behind another request. */
  lemma AdmittedIff(acts: seq<Timed>, t: Traced, id: Id, m: Method, timeout: nat, room: bool, now: Time)
    requires Runs(acts, t) && Enabled(t, Enqueue(id, m, timeout, room), now)
    ensures id in Step(t, Enqueue(id, m, timeout, room), now).s.pending <==> room && (m.Probe? ==> t.s.pending == map[])
  {
    RunTimely(acts, t);
  }
}
