/**
  A node's metrics history: a bounded ring of points in time order, and the two queries
  over it.
  */
module MetricsRing {

  /** Time 0 is the unset time. `value` stands for what is kept beside the CPU percentage. */
  datatype Point = Point(at: nat, cpu: int, value: int)

  const CAPACITY: nat := 3600
  const RETENTION: int := 3600
  const TREND: nat := 60
  const MINUTE: int := 60

  // ----- the history as a list -----

  function LastN(ps: seq<Point>, n: nat): (r: seq<Point>) {
    if |ps| <= n then ps else ps[|ps| - n..]
  }

  /** The unbounded history: an unset or older time is rejected, an equal one replaces. */
  function Accepted(ps: seq<Point>, p: Point): (r: seq<Point>) {
    if p.at == 0 then ps
    else if ps == [] then [p]
    else
      var n := |ps| - 1;
      if p.at < ps[n].at then ps else if p.at == ps[n].at then ps[n := p] else ps + [p]
  }

  function AcceptedAll(arrivals: seq<Point>): (r: seq<Point>) {
    if arrivals == [] then []
    else Accepted(AcceptedAll(arrivals[..|arrivals| - 1]), arrivals[|arrivals| - 1])
  }

  ghost predicate Increasing(ps: seq<Point>) {
    && (forall i :: 0 <= i < |ps| ==> ps[i].at != 0)
    && forall i, j :: 0 <= i < j < |ps| ==> ps[i].at < ps[j].at
  }

  function LatestAt(ps: seq<Point>): (t: nat) {
    if ps == [] then 0 else ps[|ps| - 1].at
  }

  lemma AcceptedStep(ps: seq<Point>, p: Point)
    requires Increasing(ps)
    ensures Increasing(Accepted(ps, p)) && LatestAt(Accepted(ps, p)) == if p.at > LatestAt(ps) then p.at else LatestAt(ps)
  {
  }

  /** The latest time among the first `n` arrivals. */
  function MaxAt(arrivals: seq<Point>, n: nat): (t: nat)
    requires n <= |arrivals|
  {
    if n == 0 then 0
    else if arrivals[n - 1].at > MaxAt(arrivals, n - 1) then arrivals[n - 1].at else MaxAt(arrivals, n - 1)
  }

  lemma {:induction false} MaxOfPrefix(arrivals: seq<Point>, n: nat, k: nat)
    requires k <= n <= |arrivals|
    ensures MaxAt(arrivals[..n], k) == MaxAt(arrivals, k)
  {
    if k > 0 {
      MaxOfPrefix(arrivals, n, k - 1);
    }
  }

  /** The history is in strictly increasing time order and ends at the latest time that arrived. */
  lemma {:induction false} AcceptedTimes(arrivals: seq<Point>)
    ensures Increasing(AcceptedAll(arrivals)) && LatestAt(AcceptedAll(arrivals)) == MaxAt(arrivals, |arrivals|)
  {
    if arrivals != [] {
      var n := |arrivals| - 1;
      AcceptedTimes(arrivals[..n]);
      AcceptedStep(AcceptedAll(arrivals[..n]), arrivals[n]);
      MaxOfPrefix(arrivals, n, n);
    }
  }

  // ----- which arrivals are kept -----

  /** In time when it arrived, and not replaced: an arrival of the same time came only after a later one. */
  ghost predicate Survives(arrivals: seq<Point>, i: nat)
    requires i < |arrivals|
  {
    && arrivals[i].at != 0
    && MaxAt(arrivals, i) <= arrivals[i].at
    && forall j: nat {:trigger Repeats(arrivals, i, j)} :: Repeats(arrivals, i, j) ==> MaxAt(arrivals, j) > arrivals[i].at
  }

  predicate Repeats(arrivals: seq<Point>, i: nat, j: nat) {
    i < j < |arrivals| && arrivals[j].at == arrivals[i].at
  }

  ghost predicate Kept(arrivals: seq<Point>, p: Point) {
    exists i: nat {:trigger Survives(arrivals, i)} :: i < |arrivals| && Survives(arrivals, i) && arrivals[i] == p
  }

  /** A further arrival disturbs an earlier survivor only by repeating the latest time. */
  lemma SurvivesStep(arrivals: seq<Point>, front: seq<Point>, i: nat)
    requires arrivals != [] && i < |arrivals| - 1 && front == arrivals[..|arrivals| - 1]
    ensures Survives(arrivals, i) <==>
            Survives(front, i) && (arrivals[|front|].at == arrivals[i].at ==> MaxAt(arrivals, |front|) > arrivals[i].at)
  {
    forall k | 0 <= k <= |front| ensures MaxAt(front, k) == MaxAt(arrivals, k) {
      MaxOfPrefix(arrivals, |front|, k);
    }
    assert forall j :: 0 <= j < |front| ==> front[j] == arrivals[j];
    forall j: nat ensures Repeats(arrivals, i, j) <==> Repeats(front, i, j) || (j == |front| && arrivals[j].at == arrivals[i].at) {
    }
  }

  lemma {:induction false} AtMostMax(arrivals: seq<Point>, n: nat, i: nat)
    requires i < n <= |arrivals|
    ensures arrivals[i].at <= MaxAt(arrivals, n)
  {
    if i < n - 1 {
      AtMostMax(arrivals, n - 1, i);
    }
  }

  lemma AcceptedHolds(ps: seq<Point>, p: Point, q: Point)
    requires Increasing(ps)
    ensures q in Accepted(ps, p) <==>
            (q in ps && !(p.at == q.at && p.at == LatestAt(ps))) || (q == p && p.at != 0 && p.at >= LatestAt(ps))
  {
    if ps != [] {
      var n := |ps| - 1;
      assert ps == ps[..n] + [ps[n]] && ps[n := p] == ps[..n] + [p];
      assert forall x :: x in ps[..n] ==> x.at < ps[n].at;
    }
  }

  /** The history holds exactly the surviving arrivals. */
  lemma {:induction false} KeptIff(arrivals: seq<Point>, q: Point)
    ensures q in AcceptedAll(arrivals) <==> Kept(arrivals, q)
  {
    if arrivals != [] {
      var n := |arrivals| - 1;
      KeptIff(arrivals[..n], q);
      AcceptedTimes(arrivals[..n]);
      MaxOfPrefix(arrivals, n, n);
      AcceptedHolds(AcceptedAll(arrivals[..n]), arrivals[n], q);
      KeptStep(arrivals, arrivals[..n], q);
    }
  }

  lemma KeptBefore(arrivals: seq<Point>, front: seq<Point>, q: Point)
    requires arrivals != [] && front == arrivals[..|arrivals| - 1] && Kept(arrivals, q)
    ensures (Kept(front, q) && !(arrivals[|front|].at == q.at && q.at == MaxAt(arrivals, |front|)))
            || (q == arrivals[|front|] && q.at != 0 && MaxAt(arrivals, |front|) <= q.at)
  {
    var i: nat :| i < |arrivals| && Survives(arrivals, i) && arrivals[i] == q;
    if i < |front| {
      SurvivesStep(arrivals, front, i);
      assert front[i] == q;
    }
  }

  lemma KeptAfter(arrivals: seq<Point>, front: seq<Point>, q: Point)
    requires arrivals != [] && front == arrivals[..|arrivals| - 1] && Kept(front, q)
    requires !(arrivals[|front|].at == q.at && q.at == MaxAt(arrivals, |front|))
    ensures Kept(arrivals, q)
  {
    var i: nat :| i < |front| && Survives(front, i) && front[i] == q;
    SurvivesStep(arrivals, front, i);
    AtMostMax(arrivals, |front|, i);
    assert arrivals[i] == q;
  }

  lemma KeptLast(arrivals: seq<Point>, n: nat)
    requires n + 1 == |arrivals| && arrivals[n].at != 0 && MaxAt(arrivals, n) <= arrivals[n].at
    ensures Kept(arrivals, arrivals[n])
  {
    assert Survives(arrivals, n);
  }

  lemma KeptStep(arrivals: seq<Point>, front: seq<Point>, q: Point)
    requires arrivals != [] && front == arrivals[..|arrivals| - 1]
    ensures Kept(arrivals, q) <==>
            (Kept(front, q) && !(arrivals[|front|].at == q.at && q.at == MaxAt(arrivals, |front|)))
            || (q == arrivals[|front|] && q.at != 0 && MaxAt(arrivals, |front|) <= q.at)
  {
    if Kept(arrivals, q) {
      KeptBefore(arrivals, front, q);
    } else if Kept(front, q) && !(arrivals[|front|].at == q.at && q.at == MaxAt(arrivals, |front|)) {
      KeptAfter(arrivals, front, q);
    } else if q == arrivals[|front|] && q.at != 0 && MaxAt(arrivals, |front|) <= q.at {
      KeptLast(arrivals, |front|);
    }
  }

  // ----- the ring -----

  function Bounded(ps: seq<Point>, p: Point): (r: seq<Point>) {
    LastN(Accepted(ps, p), CAPACITY)
  }

  /** The points a query keeps, in their order. */
  function Select(ps: seq<Point>, lo: int, hi: int): (r: seq<Point>) {
    if ps == [] then []
    else
      var n := |ps| - 1;
      Select(ps[..n], lo, hi) + if lo <= ps[n].at <= hi then [ps[n]] else []
  }

  function CpuOnly(ps: seq<Point>): (r: seq<Point>)
    ensures |r| == |ps| && forall i :: 0 <= i < |ps| ==> r[i] == Point(ps[i].at, ps[i].cpu, 0)
  {
    seq(|ps|, i requires 0 <= i < |ps| => Point(ps[i].at, ps[i].cpu, 0))
  }

  lemma BoundedReplaces(ps: seq<Point>, p: Point)
    requires Increasing(ps) && 0 < |ps| <= CAPACITY && p.at == LatestAt(ps)
    ensures Bounded(ps, p) == ps[|ps| - 1 := p] && Increasing(ps[|ps| - 1 := p])
  {
  }

  lemma BoundedGrows(ps: seq<Point>, p: Point)
    requires Increasing(ps) && |ps| < CAPACITY && p.at > LatestAt(ps)
    ensures Bounded(ps, p) == ps + [p] && Increasing(ps + [p])
  {
  }

  lemma BoundedShifts(ps: seq<Point>, p: Point)
    requires Increasing(ps) && |ps| == CAPACITY && p.at > LatestAt(ps)
    ensures Bounded(ps, p) == ps[1..] + [p] && Increasing(ps[1..] + [p])
  {
    assert (ps + [p])[1..] == ps[1..] + [p];
  }

  lemma {:induction false} SelectConcat(a: seq<Point>, b: seq<Point>, lo: int, hi: int)
    ensures Select(a + b, lo, hi) == Select(a, lo, hi) + Select(b, lo, hi)
  {
    if b == [] {
      assert a + b == a;
    } else {
      var n := |b| - 1;
      SelectConcat(a, b[..n], lo, hi);
      assert (a + b)[..|a + b| - 1] == a + b[..n];
    }
  }

  lemma SelectCons(all: seq<Point>, k: nat, lo: int, hi: int)
    requires k < |all|
    ensures Select(all[k..], lo, hi) == (if lo <= all[k].at <= hi then [all[k]] else []) + Select(all[k + 1..], lo, hi)
  {
    assert all[k..] == [all[k]] + all[k + 1..];
    SelectConcat([all[k]], all[k + 1..], lo, hi);
    assert [all[k]][..0] == [];
    assert Select([], lo, hi) == [];
  }

  /** In time order, everything before a point that is too old is too old. */
  lemma {:induction false} SelectStops(all: seq<Point>, i: nat, lo: int, hi: int)
    requires Increasing(all) && i <= |all| && (i > 0 ==> all[i - 1].at < lo)
    ensures Select(all[..i], lo, hi) == []
  {
    if i > 0 {
      SelectStops(all, i - 1, lo, hi);
      assert all[..i][..i - 1] == all[..i - 1];
    }
  }

  lemma LastOfConcat(a: seq<Point>, b: seq<Point>, n: nat)
    requires |b| == n || (|b| <= n && a == [])
    ensures LastN(a + b, n) == b
  {
  }

  function Reversed(ps: seq<Point>): (r: seq<Point>)
    ensures |r| == |ps| && forall i :: 0 <= i < |ps| ==> r[i] == ps[|ps| - 1 - i]
  {
    seq(|ps|, i requires 0 <= i < |ps| => ps[|ps| - 1 - i])
  }

  lemma CpuCons(p: Point, ps: seq<Point>, back: seq<Point>)
    requires Reversed(back) == CpuOnly(ps)
    ensures Reversed(back + [Point(p.at, p.cpu, 0)]) == CpuOnly([p] + ps)
  {
  }

  /** The backward scan has found, newest first, the selection from `i` on. */
  ghost predicate Scanned(all: seq<Point>, i: nat, lo: int, hi: int, back: seq<Point>) {
    i <= |all| && Reversed(back) == CpuOnly(Select(all[i..], lo, hi))
  }

  lemma ScanStep(all: seq<Point>, i: nat, lo: int, hi: int, back: seq<Point>)
    requires i < |all| && Scanned(all, i + 1, lo, hi, back) && all[i].at >= lo
    ensures Scanned(all, i, lo, hi, if all[i].at > hi then back else back + [Point(all[i].at, all[i].cpu, 0)])
  {
    SelectCons(all, i, lo, hi);
    CpuCons(all[i], Select(all[i + 1..], lo, hi), back);
    assert [] + Select(all[i + 1..], lo, hi) == Select(all[i + 1..], lo, hi);
  }

  lemma Wraps(a: nat, n: nat)
    requires n > 0 && a < 2 * n
    ensures a % n == if a < n then a else a - n
  {
    var q := a / n;
    assert a == q * n + a % n;
    assert (q >= 2 ==> q * n >= 2 * n) && (q <= 0 ==> q * n <= 0);
  }

  function Rotated(points: seq<Point>, head: nat): (ps: seq<Point>)
    requires head <= |points|
    ensures |ps| == |points|
  {
    points[head..] + points[..head]
  }

  function Place(head: nat, i: nat, n: nat): (k: nat)
    requires n > 0
    ensures k < n
  {
    (head + i) % n
  }

  lemma RotatedAt(points: seq<Point>, head: nat, i: nat)
    requires head <= |points| && i < |points|
    ensures Rotated(points, head)[i] == points[Place(head, i, |points|)]
  {
    Wraps(head + i, |points|);
  }

  /** The point at a place counted from the oldest. */
  function RingAt(points: seq<Point>, head: nat, i: nat): (p: Point)
    requires head <= |points| && i < |points|
    ensures p == Rotated(points, head)[i]
  {
    RotatedAt(points, head, i);
    points[Place(head, i, |points|)]
  }

  lemma RotatedReplaces(points: seq<Point>, head: nat, i: nat, p: Point)
    requires head <= |points| && i < |points|
    ensures Rotated(points[Place(head, i, |points|) := p], head) == Rotated(points, head)[i := p]
  {
    Wraps(head + i, |points|);
  }

  function Following(head: nat, n: nat): (r: nat)
    requires head < n
    ensures r < n
  {
    (head + 1) % n
  }

  /** Overwriting the oldest point and moving the head drops it and appends the new one. */
  lemma RotatedPushes(points: seq<Point>, head: nat, p: Point)
    requires head < |points|
    ensures Rotated(points[head := p], Following(head, |points|)) == Rotated(points, head)[1..] + [p]
  {
    Wraps(head + 1, |points|);
  }

  class History {
    var points: seq<Point>
    var head: nat

    ghost predicate Valid()
      reads this
    {
      && |points| <= CAPACITY && head <= |points|
      && (|points| < CAPACITY ==> head == 0) && (|points| == CAPACITY ==> head < CAPACITY)
      && Increasing(Contents())
    }

    /** The points from the oldest to the newest. */
    ghost function Contents(): (ps: seq<Point>)
      requires head <= |points|
      reads this
    {
      Rotated(points, head)
    }

    constructor ()
      ensures Valid() && Contents() == []
    {
      points, head := [], 0;
    }

    method AppendPoint(p: Point)
      requires Valid()
      modifies this
      ensures Valid() && Contents() == Bounded(old(Contents()), p)
    {
      if p.at == 0 {
        return;
      }
      if |points| > 0 {
        var last := RingAt(points, head, |points| - 1);
        if p.at < last.at {
          return;
        }
        if p.at == last.at {
          Replace(p);
          return;
        }
      }
      if |points| < CAPACITY {
        Grow(p);
        return;
      }
      Overwrite(p);
    }

    method Replace(p: Point)
      requires Valid() && |points| > 0 && p.at == LatestAt(Contents())
      modifies this
      ensures Valid() && Contents() == Bounded(old(Contents()), p)
    {
      RotatedReplaces(points, head, |points| - 1, p);
      BoundedReplaces(Contents(), p);
      points := points[Place(head, |points| - 1, |points|) := p];
    }

    method Grow(p: Point)
      requires Valid() && |points| < CAPACITY && p.at > LatestAt(Contents())
      modifies this
      ensures Valid() && Contents() == Bounded(old(Contents()), p)
    {
      ghost var was := Contents();
      BoundedGrows(was, p);
      points := points + [p];
      assert Contents() == was + [p];
    }

    method Overwrite(p: Point)
      requires Valid() && |points| == CAPACITY && p.at > LatestAt(Contents())
      modifies this
      ensures Valid() && Contents() == Bounded(old(Contents()), p)
    {
      RotatedPushes(points, head, p);
      BoundedShifts(Contents(), p);
      points := points[head := p];
      head := Following(head, |points|);
    }

    method Latest() returns (t: nat)
      requires Valid()
      ensures t == LatestAt(Contents())
    {
      if |points| == 0 {
        return 0;
      }
      t := RingAt(points, head, |points| - 1).at;
    }

    /** Points of the retention period up to now that are newer than `after`. */
    method After(now: nat, after: nat) returns (r: seq<Point>)
      requires Valid()
      ensures r == Select(Contents(), if now - 3600 > after then now - 3600 else after + 1, now)
    {
      ghost var lo := if now - RETENTION > after then now - RETENTION else after + 1;
      r := [];
      for i := 0 to |points|
        invariant r == Select(Contents()[..i], lo, now)
      {
        var point := RingAt(points, head, i);
        assert Contents()[..i + 1][..i] == Contents()[..i];
        if point.at < now - RETENTION || point.at > now || !(point.at > after) {
          continue;
        }
        r := r + [point];
      }
      assert Contents()[..|points|] == Contents();
    }

    function PointAt(i: nat): (p: Point)
      requires Valid() && i < |points|
      reads this
      ensures p == Contents()[i]
    {
      RingAt(points, head, i)
    }

    /** The last minute's CPU, newest sixty at most: a backward scan that stops at the first older point. */
    method RecentCpu(now: nat) returns (r: seq<Point>)
      requires Valid()
      ensures r == CpuOnly(LastN(Select(Contents(), now - 60, now), 60))
    {
      ghost var all, lo := Contents(), now - MINUTE;
      var back: seq<Point> := [];
      var i := |points|;
      while i > 0 && |back| < TREND
        invariant 0 <= i <= |points| && |back| <= TREND
        invariant Scanned(all, i, lo, now, back)
      {
        var point := PointAt(i - 1);
        if point.at < now - MINUTE {
          break;
        }
        ScanStep(all, i - 1, lo, now, back);
        i := i - 1;
        if point.at > now {
          continue;
        }
        back := back + [Point(point.at, point.cpu, 0)];
      }
      TrendFound(all, i, lo, now, back);
      r := Reversed(back);
    }
  }

  /** What a backward scan found down to `i` is the newest of the selection, if it is enough or all. */
  lemma TrendIs(all: seq<Point>, i: nat, lo: int, hi: int)
    requires i <= |all|
    requires var found := Select(all[i..], lo, hi); |found| == TREND || (|found| < TREND && Select(all[..i], lo, hi) == [])
    ensures LastN(Select(all, lo, hi), TREND) == Select(all[i..], lo, hi)
  {
    assert all == all[..i] + all[i..];
    SelectConcat(all[..i], all[i..], lo, hi);
    LastOfConcat(Select(all[..i], lo, hi), Select(all[i..], lo, hi), TREND);
  }

  lemma TrendFound(all: seq<Point>, i: nat, lo: int, hi: int, back: seq<Point>)
    requires Increasing(all) && Scanned(all, i, lo, hi, back)
    requires |back| == TREND || (|back| < TREND && (i > 0 ==> all[i - 1].at < lo))
    ensures Reversed(back) == CpuOnly(LastN(Select(all, lo, hi), TREND))
  {
    if |back| < TREND {
      SelectStops(all, i, lo, hi);
    }
    assert |Reversed(back)| == |Select(all[i..], lo, hi)|;
    TrendIs(all, i, lo, hi);
  }

  // ----- every sequence of appends -----

  function BoundedAll(arrivals: seq<Point>): (r: seq<Point>) {
    if arrivals == [] then []
    else Bounded(BoundedAll(arrivals[..|arrivals| - 1]), arrivals[|arrivals| - 1])
  }

  lemma LastNSnoc(all: seq<Point>, p: Point, n: nat)
    requires n > 0
    ensures LastN(LastN(all, n) + [p], n) == LastN(all + [p], n)
  {
  }

  lemma LastNUpdate(all: seq<Point>, p: Point, n: nat)
    requires n > 0 && all != []
    ensures LastN(all, n)[|LastN(all, n)| - 1 := p] == LastN(all[|all| - 1 := p], n)
  {
  }

  lemma BoundedStep(all: seq<Point>, p: Point, n: nat)
    requires n > 0
    ensures LastN(Accepted(LastN(all, n), p), n) == LastN(Accepted(all, p), n)
  {
    LastNSnoc(all, p, n);
    if all != [] {
      LastNUpdate(all, p, n);
      assert LatestAt(LastN(all, n)) == LatestAt(all);
    }
  }

  /** What the ring holds after any appends is the last 3600 points of the unbounded history. */
  lemma {:induction false} RingIsRecentHistory(arrivals: seq<Point>)
    ensures BoundedAll(arrivals) == LastN(AcceptedAll(arrivals), 3600)
  {
    if arrivals != [] {
      var n := |arrivals| - 1;
      RingIsRecentHistory(arrivals[..n]);
      BoundedStep(AcceptedAll(arrivals[..n]), arrivals[n], CAPACITY);
    }
  }
}
