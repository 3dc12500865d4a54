/**
  Any number of processes taking lock sets: what they hold, what they wait for, and the
  exact condition under which they never deadlock.
  */
module LockProcesses {
  import opened Wrappers
  import opened LockOrder

  /** What a process holds, and what its current acquisition has still to take, in order. */
  datatype Proc = Proc(held: set<Lock>, wants: seq<Lock>)

  type System = seq<Proc>

  datatype Action =
    | Acquire(keys: seq<string>, ids: seq<string>)
    | Nest(ids: seq<string>)
    | Take
    | Release(kept: set<Lock>)

  ghost predicate Free(sys: System, lock: Lock) {
    forall p :: p in sys ==> lock !in p.held
  }

  /** A nested per-node set is the only acquisition allowed to a process that holds locks, and only global ones. */
  ghost predicate Enabled(sys: System, i: nat, a: Action) {
    i < |sys| &&
    match a
    case Acquire(keys, ids) => sys[i] == Proc({}, []) && AllUsable(ids)
    case Nest(ids) => sys[i].wants == [] && (forall l :: l in sys[i].held ==> l.Domain?) && AllUsable(ids)
    case Take => sys[i].wants != [] && Free(sys, sys[i].wants[0])
    case Release(kept) => kept <= sys[i].held
  }

  /** Releasing also stands for an acquisition given up: what it had taken is closed, the rest not waited for. */
  function Moved(p: Proc, a: Action): (q: Proc) {
    match a
    case Acquire(keys, ids) => Proc(p.held, Paths(keys, ids))
    case Nest(ids) => Proc(p.held, Paths([], ids))
    case Take => if p.wants == [] then p else Proc(p.held + {p.wants[0]}, p.wants[1..])
    case Release(kept) => Proc(kept, [])
  }

  function Step(sys: System, i: nat, a: Action): (r: System)
    requires i < |sys|
  {
    sys[i := Moved(sys[i], a)]
  }

  datatype By = By(who: nat, act: Action)

  function Idle(n: nat): (sys: System)
    ensures |sys| == n && forall i :: 0 <= i < n ==> sys[i] == Proc({}, [])
  {
    seq(n, i => Proc({}, []))
  }

  ghost predicate Runs(n: nat, acts: seq<By>, end: System)
    decreases |acts|
  {
    if acts == [] then end == Idle(n)
    else
      var k := |acts| - 1;
      exists mid :: Runs(n, acts[..k], mid) && Enabled(mid, acts[k].who, acts[k].act)
                    && end == Step(mid, acts[k].who, acts[k].act)
  }

  // ----- deadlock -----

  /** The next lock is held: by another process, or by this one already. */
  ghost predicate Waits(sys: System, p: Proc) {
    p.wants != [] && !Free(sys, p.wants[0])
  }

  /** Some process waits, and every process that holds a lock waits. */
  ghost predicate Deadlocked(sys: System) {
    (exists p :: p in sys && Waits(sys, p)) && forall p :: p in sys && p.held != {} ==> Waits(sys, p)
  }

  // ----- an orderly system never deadlocks -----

  ghost predicate Orderly(p: Proc) {
    InOrder(p.wants) && forall h, w :: h in p.held && w in p.wants ==> Before(h, w)
  }

  ghost predicate AllOrderly(sys: System) {
    forall p :: p in sys ==> Orderly(p)
  }

  lemma BeforeOrders(a: Lock, b: Lock, c: Lock)
    ensures Before(a, b) && Before(b, c) ==> Before(a, c)
    ensures Before(a, b) || a == b || Before(b, a)
    ensures !(Before(a, b) && Before(b, a)) && !Before(a, a)
  {
    LessTotal(a.name, b.name);
    LessTotal(a.name, a.name);
    if Less(a.name, b.name) && Less(b.name, c.name) {
      LessTrans(a.name, b.name, c.name);
    }
  }

  lemma {:induction false} LastOf(locks: set<Lock>) returns (last: Lock)
    requires locks != {}
    ensures last in locks && forall l :: l in locks && l != last ==> Before(l, last)
    decreases |locks|
  {
    var x :| x in locks;
    if locks == {x} {
      last := x;
    } else {
      assert locks - {x} != {};
      var y := LastOf(locks - {x});
      BeforeOrders(x, y, x);
      last := if Before(x, y) then y else x;
      forall l | l in locks && l != last ensures Before(l, last) {
        BeforeOrders(l, y, x);
      }
    }
  }

  /** Whenever some process waits, some lock holder does not. */
  lemma OrderlyRuns(sys: System)
    requires AllOrderly(sys)
    ensures !Deadlocked(sys)
  {
    if Deadlocked(sys) {
      var blocked := set p | p in sys && p.wants != [] && Waits(sys, p) :: p.wants[0];
      var p :| p in sys && Waits(sys, p);
      assert p.wants[0] in blocked;
      var last := LastOf(blocked);
      var q :| q in sys && Waits(sys, q) && q.wants[0] == last;
      var holder :| holder in sys && last in holder.held;
      assert Waits(sys, holder) && holder.wants[0] in blocked;
      assert Orderly(holder) && holder.wants[0] in holder.wants;
      BeforeOrders(last, holder.wants[0], last);
      assert false;
    }
  }

  /** Every acquisition in the run trims its IDs in order. */
  ghost predicate Tidy(acts: seq<By>) {
    forall b :: b in acts ==>
                  match b.act
                  case Acquire(_, ids) => TrimsInOrder(ids)
                  case Nest(ids) => TrimsInOrder(ids)
                  case _ => true
  }

  lemma NestedAreNodes(ids: seq<string>)
    ensures forall l :: l in Paths([], ids) ==> l.NodeLock?
  {
  }

  lemma StepOrderly(p: Proc, a: Action)
    requires Orderly(p)
    requires match a
             case Acquire(_, ids) => p == Proc({}, []) && TrimsInOrder(ids)
             case Nest(ids) => p.wants == [] && (forall l :: l in p.held ==> l.Domain?) && TrimsInOrder(ids)
             case Release(kept) => kept <= p.held
             case Take => true
    ensures Orderly(Moved(p, a))
  {
    match a
    case Acquire(keys, ids) => PathsInOrderIff(keys, ids);
    case Nest(ids) =>
      PathsInOrderIff([], ids);
      NestedAreNodes(ids);
    case Take =>
      if p.wants != [] {
        assert forall w :: w in p.wants[1..] ==> Before(p.wants[0], w);
      }
    case Release(kept) =>
  }

  lemma {:induction false} RunOrderly(n: nat, acts: seq<By>, end: System)
    requires Runs(n, acts, end) && Tidy(acts)
    ensures AllOrderly(end)
    decreases |acts|
  {
    if acts != [] {
      var k := |acts| - 1;
      var mid :| Runs(n, acts[..k], mid) && Enabled(mid, acts[k].who, acts[k].act) && end == Step(mid, acts[k].who, acts[k].act);
      assert acts[k] in acts && forall b :: b in acts[..k] ==> b in acts;
      RunOrderly(n, acts[..k], mid);
      assert mid[acts[k].who] in mid;
      StepOrderly(mid[acts[k].who], acts[k].act);
      forall p | p in end ensures Orderly(p) {
        if p != Moved(mid[acts[k].who], acts[k].act) {
          assert p in mid;
        }
      }
    }
  }

  /** For any number of processes: no reachable state is deadlocked while trimming keeps requests in order. */
  lemma NeverDeadlocked(n: nat, acts: seq<By>, end: System)
    requires Runs(n, acts, end) && Tidy(acts)
    ensures !Deadlocked(end)
  {
    RunOrderly(n, acts, end);
    OrderlyRuns(end);
  }

  // ----- and any other request can deadlock -----

  lemma {:induction false} TrimLeftHead(s: string)
    ensures TrimLeft(s) == [] || !Space(TrimLeft(s)[0])
  {
    if s != [] && Space(s[0]) {
      TrimLeftHead(s[1..]);
    }
  }

  lemma {:induction false} TrimRightEnd(s: string)
    ensures var r := TrimRight(s);
            && |r| <= |s| && r == s[..|r|] && (r == [] || !Space(r[|r| - 1]))
  {
    if s != [] && Space(s[|s| - 1]) {
      TrimRightEnd(s[..|s| - 1]);
    }
  }

  lemma TrimTwice(s: string)
    ensures Trim(Trim(s)) == Trim(s)
  {
    TrimLeftHead(s);
    TrimRightEnd(TrimLeft(s));
  }

  lemma SortedPair(x: string, y: string)
    requires Less(x, y)
    ensures Sorted([x, y]) == [x, y]
  {
    LessTotal(x, y);
    assert [x, y][..1] == [x] && [x][..0] == [] && [x][1..] == [];
    assert Sorted([]) == [];
    assert Sorted([x]) == Insert(x, []) == [x];
    assert Insert(y, [x]) == [x] + Insert(y, []);
  }

  /** A request for two node locks by their own names. */
  lemma PairPaths(a: string, b: string, ids: seq<string>)
    requires Less(Trim(a), Trim(b)) && ids == [Trim(a), Trim(b)]
    ensures Paths([], ids) == [NodeLock(Trim(a)), NodeLock(Trim(b))] && TrimsInOrder(ids)
  {
    TrimTwice(a);
    TrimTwice(b);
    SortedPair(Trim(a), Trim(b));
    assert Sorted([]) == [];
  }

  ghost predicate Distinct(locks: seq<Lock>) {
    forall i, j :: 0 <= i < j < |locks| ==> locks[i] != locks[j]
  }

  lemma RunsSnoc(n: nat, acts: seq<By>, mid: System, i: nat, a: Action)
    requires Runs(n, acts, mid) && Enabled(mid, i, a)
    ensures Runs(n, acts + [By(i, a)], Step(mid, i, a))
  {
    var more := acts + [By(i, a)];
    assert more[..|more| - 1] == acts;
  }

  function Elements(ps: seq<Lock>): (r: set<Lock>)
    ensures forall l :: l in r <==> l in ps
  {
    set l | l in ps
  }

  /** What process 0 of two is once it has taken the first `m` of its files. */
  function Taken(ps: seq<Lock>, m: nat): (sys: System)
    requires m <= |ps|
  {
    [Proc(Elements(ps[..m]), ps[m..]), Proc({}, [])]
  }

  lemma TakeStep(ps: seq<Lock>, m: nat)
    requires m < |ps| && ps[m] !in ps[..m]
    ensures Enabled(Taken(ps, m), 0, Take) && Step(Taken(ps, m), 0, Take) == Taken(ps, m + 1)
  {
    assert ps[..m + 1] == ps[..m] + [ps[m]];
    assert Elements(ps[..m + 1]) == Elements(ps[..m]) + {ps[m]};
  }

  lemma StartStep(keys: seq<string>, ids: seq<string>)
    requires AllUsable(ids)
    ensures Enabled(Idle(2), 0, Acquire(keys, ids)) && Step(Idle(2), 0, Acquire(keys, ids)) == Taken(Paths(keys, ids), 0)
  {
    var ps := Paths(keys, ids);
    assert ps[0..] == ps && Elements(ps[..0]) == {};
  }

  lemma {:induction false} TakesRun(keys: seq<string>, ids: seq<string>, ps: seq<Lock>, m: nat) returns (acts: seq<By>)
    requires AllUsable(ids) && ps == Paths(keys, ids) && m <= |ps| && Distinct(ps[..m])
    ensures Runs(2, acts, Taken(ps, m))
    ensures forall b :: b in acts ==> b.act == Acquire(keys, ids) || b.act == Take
  {
    if m == 0 {
      assert Runs(2, [], Idle(2));
      StartStep(keys, ids);
      RunsSnoc(2, [], Idle(2), 0, Acquire(keys, ids));
      acts := [] + [By(0, Acquire(keys, ids))];
    } else {
      assert ps[..m][..m - 1] == ps[..m - 1] && ps[m - 1] == ps[..m][m - 1];
      acts := TakesRun(keys, ids, ps, m - 1);
      TakeStep(ps, m - 1);
      RunsSnoc(2, acts, Taken(ps, m - 1), 0, Take);
      acts := acts + [By(0, Take)];
    }
  }

  /** A process that asks again for a lock it holds waits for itself. */
  lemma WaitsForItself(ps: seq<Lock>, m: nat)
    requires m < |ps| && ps[m] in ps[..m]
    ensures Deadlocked(Taken(ps, m))
  {
    var sys := Taken(ps, m);
    assert sys[0] in sys && ps[m] in sys[0].held;
    assert Waits(sys, sys[0]);
  }

  /** Two processes that each hold what the other asks for next. */
  lemma CrossedDeadlock(ps: seq<Lock>, m: nat, i: nat, sys: System)
    requires i < m < |ps|
    requires sys == [Taken(ps, m)[0], Proc({ps[m]}, [ps[i]])]
    ensures Deadlocked(sys)
  {
    assert ps[i] == ps[..m][i];
    assert ps[i] in sys[0].held && ps[m] in sys[1].held && sys[0] in sys && sys[1] in sys;
    assert Waits(sys, sys[0]) && Waits(sys, sys[1]);
  }

  /** The first file that is out of order, and one before it that it should have preceded or equals. */
  lemma {:induction false} FirstDisorder(ps: seq<Lock>, n: nat) returns (m: nat, i: nat)
    requires n <= |ps| && !InOrder(ps[..n])
    ensures i < m < n && InOrder(ps[..m]) && !Before(ps[i], ps[m])
  {
    assert forall k :: 0 <= k < n ==> ps[..n][k] == ps[k];
    var a, b :| 0 <= a < b < n && !Before(ps[a], ps[b]);
    if InOrder(ps[..n - 1]) {
      assert forall k :: 0 <= k < n - 1 ==> ps[..n - 1][k] == ps[k];
      m, i := n - 1, a;
    } else {
      m, i := FirstDisorder(ps, n - 1);
    }
  }

  lemma InOrderDistinct(ps: seq<Lock>)
    requires InOrder(ps)
    ensures Distinct(ps)
  {
    forall i, j | 0 <= i < j < |ps| ensures ps[i] != ps[j] {
      BeforeOrders(ps[i], ps[j], ps[i]);
    }
  }

  /** Global domains are always in order, so only node locks can be out of order. */
  lemma DisorderIsNodes(keys: seq<string>, ids: seq<string>, i: nat, m: nat)
    requires i < m < |Paths(keys, ids)| && !Before(Paths(keys, ids)[i], Paths(keys, ids)[m])
    ensures exists a, b :: a in ids && b in ids && Paths(keys, ids)[i] == NodeLock(Trim(a)) && Paths(keys, ids)[m] == NodeLock(Trim(b))
  {
    var ks, sorted := Sorted(keys), Sorted(ids);
    var n := |ks|;
    assert i >= n;
    assert sorted[i - n] in ids && sorted[m - n] in ids;
  }

  lemma CrossStep(sys: System, l: Lock, k: Lock)
    requires |sys| == 2 && sys[1] == Proc({}, [l, k]) && l !in sys[0].held
    ensures Enabled(sys, 1, Take) && Step(sys, 1, Take) == [sys[0], Proc({l}, [k])]
  {
    assert [l, k][1..] == [k] && {} + {l} == {l};
  }

  /** The second process takes the lock the first one asks for next, then asks for one the first one holds. */
  lemma Crossing(first: Proc, own: seq<By>, a: string, b: string) returns (acts: seq<By>, end: System)
    requires Runs(2, own, [first, Proc({}, [])]) && NodeLock(Trim(a)) !in first.held
    requires Less(Trim(a), Trim(b)) && Usable(Trim(a)) && Usable(Trim(b))
    ensures end == [first, Proc({NodeLock(Trim(a))}, [NodeLock(Trim(b))])]
    ensures Runs(2, acts, end)
    ensures forall x :: x in acts && x.act.Acquire? ==> x in own || TrimsInOrder(x.act.ids)
  {
    var ids := [Trim(a), Trim(b)];
    PairPaths(a, b, ids);
    assert AllUsable(ids) by { TrimTwice(a); TrimTwice(b); }
    var t0 := [first, Proc({}, [])];
    RunsSnoc(2, own, t0, 1, Acquire([], ids));
    acts := own + [By(1, Acquire([], ids))];
    var t1 := [first, Proc({}, [NodeLock(Trim(a)), NodeLock(Trim(b))])];
    assert Step(t0, 1, Acquire([], ids)) == t1;
    CrossStep(t1, NodeLock(Trim(a)), NodeLock(Trim(b)));
    RunsSnoc(2, acts, t1, 1, Take);
    end := Step(t1, 1, Take);
    acts := acts + [By(1, Take)];
  }

  /**
    The condition is exact: for every acceptable request whose IDs trimming does not keep in
    order, two processes, one making this request and the other an ordinary one, can deadlock.
    */
  lemma UntidyDeadlocks(keys: seq<string>, ids: seq<string>) returns (acts: seq<By>, end: System)
    requires AllUsable(ids) && !TrimsInOrder(ids)
    ensures Runs(2, acts, end) && Deadlocked(end)
    ensures forall b :: b in acts && b.act.Acquire? ==> b.act == Acquire(keys, ids) || TrimsInOrder(b.act.ids)
  {
    var ps := Paths(keys, ids);
    PathsInOrderIff(keys, ids);
    assert ps[..|ps|] == ps;
    var m, i := FirstDisorder(ps, |ps|);
    InOrderDistinct(ps[..m]);
    acts := TakesRun(keys, ids, ps, m);
    end := Taken(ps, m);
    if ps[m] in ps[..m] {
      WaitsForItself(ps, m);
    } else {
      DisorderIsNodes(keys, ids, i, m);
      var a, b :| a in ids && b in ids && ps[i] == NodeLock(Trim(a)) && ps[m] == NodeLock(Trim(b));
      assert ps[i] in ps[..m] by { assert ps[..m][i] == ps[i]; }
      BeforeOrders(ps[m], ps[i], ps[m]);
      ghost var own := acts;
      acts, end := Crossing(Taken(ps, m)[0], own, b, a);
      CrossedDeadlock(ps, m, i, end);
    }
  }
}
