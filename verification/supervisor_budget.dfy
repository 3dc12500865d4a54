/**
  The renderer supervisor's restart budget: a rolling list of charged restarts that
  sustained health clears, forced restarts, and the one journal-dropping restart.
  */
module SupervisorBudget {

  type Time = nat

  /** The effective policy: unset values have been replaced by the defaults. */
  datatype Policy = Policy(maxRestarts: nat, window: nat, healthyReset: nat)

  ghost predicate Sane(p: Policy) {
    p.maxRestarts > 0 && p.window > 0 && p.healthyReset > 0
  }

  datatype State = State(restarts: seq<Time>, forced: bool, mismatch: bool, cleanStarted: bool,
                         link: bool, accept: bool, healthySince: Time, degraded: bool)

  datatype Plan = Plan(allowed: bool, charge: bool, clean: bool)

  const NONE: State := State([], false, false, false, false, false, 0, false)

  // ----- the decision -----

  /** The restarts of the window that ends now. */
  function Recent(restarts: seq<Time>, now: Time, window: nat): (r: seq<Time>) {
    if restarts == [] then []
    else
      var n := |restarts| - 1;
      Recent(restarts[..n], now, window) + if restarts[n] + window > now then [restarts[n]] else []
  }

  function Decision(s: State, p: Policy, recent: nat, history: bool): (r: Plan) {
    var exhausted := recent >= p.maxRestarts;
    if s.mismatch then Plan(s.forced, false, false)
    else if exhausted && history && !s.cleanStarted then Plan(true, false, true)
    else if s.forced then Plan(true, false, false)
    else if exhausted then Plan(false, false, false)
    else Plan(true, true, false)
  }

  function Pruned(s: State, p: Policy, now: Time): (r: State) {
    s.(restarts := Recent(s.restarts, now, p.window), forced := false)
  }

  function PlanFor(s: State, p: Policy, now: Time, history: bool): (r: Plan) {
    Decision(s, p, |Recent(s.restarts, now, p.window)|, history)
  }

  // ----- the steps -----

  function Attempted(s: State, p: Policy, now: Time, history: bool): (r: State) {
    var plan, q := PlanFor(s, p, now, history), Pruned(s, p, now);
    if !plan.allowed then q.(link := false, accept := false, degraded := true)
    else q.(restarts := if plan.charge then q.restarts + [now] else q.restarts,
            cleanStarted := q.cleanStarted || plan.clean,
            link := false, accept := false, degraded := false)
  }

  function Installed(s: State, now: Time): (r: State) {
    s.(link := true, accept := true, healthySince := now, degraded := false, mismatch := false)
  }

  predicate EarnsReset(s: State, p: Policy, now: Time) {
    s.link && s.accept && s.restarts != [] && now - s.healthySince >= p.healthyReset
  }

  function Ticked(s: State, p: Policy, now: Time): (r: State) {
    if EarnsReset(s, p, now) then s.(restarts := [], cleanStarted := false) else s
  }

  class Supervisor {
    const policy: Policy
    var restarts: seq<Time>
    var forced: bool
    var mismatch: bool
    var cleanStarted: bool
    var link: bool
    var accept: bool
    var healthySince: Time
    var degraded: bool

    constructor (policy: Policy)
      ensures Value() == NONE && this.policy == policy
    {
      this.policy := policy;
      restarts, forced, mismatch, cleanStarted := [], false, false, false;
      link, accept, healthySince, degraded := false, false, 0, false;
    }

    ghost function Value(): (s: State)
      reads this
    {
      State(restarts, forced, mismatch, cleanStarted, link, accept, healthySince, degraded)
    }

    /** Drops what left the window, consumes the forced flag, and decides. */
    method PlanRestart(now: Time, history: bool) returns (plan: Plan)
      modifies this`restarts, this`forced
      ensures plan == PlanFor(old(Value()), policy, now, history)
      ensures Value() == Pruned(old(Value()), policy, now)
    {
      ghost var was := Value();
      var kept: seq<Time> := [];
      for i := 0 to |restarts|
        invariant kept == Recent(restarts[..i], now, policy.window)
        invariant Value() == was
      {
        assert restarts[..i + 1][..i] == restarts[..i];
        if restarts[i] > now - policy.window {
          kept := kept + [restarts[i]];
        }
      }
      assert restarts[..|restarts|] == restarts;
      restarts := kept;
      var wasForced := forced;
      forced := false;
      if mismatch {
        return Plan(wasForced, false, false);
      }
      var exhausted := |restarts| >= policy.maxRestarts;
      if exhausted && history && !cleanStarted {
        return Plan(true, false, true);
      }
      if wasForced {
        return Plan(true, false, false);
      }
      if exhausted {
        return Plan(false, false, false);
      }
      return Plan(true, true, false);
    }

    method Restart(now: Time, history: bool)
      modifies this
      ensures Value() == Attempted(old(Value()), policy, now, history)
    {
      var plan := PlanRestart(now, history);
      if !plan.allowed {
        link, accept, degraded := false, false, true;
        return;
      }
      if plan.charge {
        restarts := restarts + [now];
      }
      if plan.clean {
        cleanStarted := true;
      }
      link, accept, degraded := false, false, false;
    }

    method Install(now: Time)
      modifies this
      ensures Value() == Installed(old(Value()), now)
    {
      link, accept, healthySince, degraded, mismatch := true, true, now, false, false;
    }

    method Tick(now: Time)
      modifies this
      ensures Value() == Ticked(old(Value()), policy, now)
    {
      if link && accept && |restarts| > 0 && now - healthySince >= policy.healthyReset {
        restarts := [];
        cleanStarted := false;
      }
    }
  }

  // ----- runs -----

  datatype Action =
    | Attempt(history: bool)
    | Install
    | StartFailed(protocol: bool)
    | Lose
    | Force
    | Tick

  /** A step and the instant it is taken. */
  datatype Timed = Timed(act: Action, now: Time)

  datatype Mark = Cleaned | WasReset

  /**
    The supervisor with what it has done: every charge ever made, every attempt that was allowed
    without being forced or dropping the journal, every clean restart and reset, the last attempt.
    */
  datatype Traced = Traced(s: State, clock: Time, charges: seq<Time>, ordinary: seq<Time>, marks: seq<Mark>, attempted: Time)

  const START: Traced := Traced(NONE, 0, [], [], [], 0)

  function Step(t: Traced, p: Policy, a: Action, now: Time): (r: Traced) {
    var u := t.(clock := now);
    match a
    case Attempt(history) =>
      var plan := PlanFor(t.s, p, now, history);
      u.(s := Attempted(t.s, p, now, history),
         charges := if plan.charge then t.charges + [now] else t.charges,
         ordinary := if plan.allowed && !t.s.forced && !plan.clean then t.ordinary + [now] else t.ordinary,
         marks := if plan.clean then t.marks + [Cleaned] else t.marks, attempted := now)
    case Install => u.(s := Installed(t.s, now))
    case StartFailed(protocol) => u.(s := t.s.(accept := false, mismatch := t.s.mismatch || protocol))
    case Lose => u.(s := t.s.(accept := false))
    case Force => u.(s := t.s.(forced := true))
    case Tick => u.(s := Ticked(t.s, p, now), marks := if EarnsReset(t.s, p, now) then t.marks + [WasReset] else t.marks)
  }

  /** The clock never runs backwards, and a renderer is installed only where there is none. */
  predicate Enabled(t: Traced, a: Action, now: Time) {
    now >= t.clock && (a.Install? ==> !t.s.link)
  }

  ghost predicate Runs(p: Policy, acts: seq<Timed>, end: Traced)
    decreases |acts|
  {
    if acts == [] then end == START
    else
      var n := |acts| - 1;
      exists mid :: Runs(p, acts[..n], mid) && Enabled(mid, acts[n].act, acts[n].now)
                    && end == Step(mid, p, acts[n].act, acts[n].now)
  }

  // ----- the rolling budget -----

  ghost predicate Sorted(ts: seq<Time>) {
    forall i, j :: 0 <= i <= j < |ts| ==> ts[i] <= ts[j]
  }

  /** Any `maxRestarts + 1` successive charges span at least the window. */
  ghost predicate Spaced(charges: seq<Time>, p: Policy) {
    forall i, j :: 0 <= i && j == i + p.maxRestarts && j < |charges| ==> charges[j] - charges[i] >= p.window
  }

  /** The list is the tail of all charges that is not yet out of the window. */
  ghost predicate Tail(restarts: seq<Time>, charges: seq<Time>, clock: Time, window: nat) {
    && |restarts| <= |charges| && restarts == charges[|charges| - |restarts|..]
    && forall i :: 0 <= i < |charges| - |restarts| ==> charges[i] + window <= clock
  }

  ghost predicate Budgeted(t: Traced, p: Policy) {
    && Sorted(t.charges) && (forall c :: c in t.charges ==> c <= t.clock)
    && Tail(t.s.restarts, t.charges, t.clock, p.window)
    && (t.s.link && t.s.accept ==> forall c :: c in t.charges ==> c <= t.s.healthySince)
    && Spaced(t.charges, p)
  }

  /** Of a sorted list, the recent part is a tail. */
  lemma {:induction false} RecentIsTail(ts: seq<Time>, now: Time, window: nat)
    requires Sorted(ts)
    ensures var r := Recent(ts, now, window);
            && |r| <= |ts| && r == ts[|ts| - |r|..]
            && (forall i :: 0 <= i < |ts| - |r| ==> ts[i] + window <= now)
            && (forall c :: c in r ==> c + window > now)
  {
    if ts != [] {
      var n := |ts| - 1;
      RecentIsTail(ts[..n], now, window);
      if ts[n] + window <= now {
        var r := Recent(ts[..n], now, window);
        assert r != [] ==> r[0] in r;
      }
    }
  }

  lemma TailOfTail(ts: seq<Time>, charges: seq<Time>, clock: Time, now: Time, window: nat)
    requires Sorted(charges) && Tail(ts, charges, clock, window) && now >= clock
    ensures Tail(Recent(ts, now, window), charges, now, window)
  {
    assert Sorted(ts);
    RecentIsTail(ts, now, window);
    var r := Recent(ts, now, window);
    var k := |charges| - |ts|;
    assert forall i :: k <= i < |charges| ==> charges[i] == ts[i - k];
  }

  lemma ChargeSpaced(charges: seq<Time>, recent: seq<Time>, p: Policy, now: Time)
    requires Sorted(charges) && Spaced(charges, p) && Tail(recent, charges, now, p.window) && |recent| < p.maxRestarts
    ensures Spaced(charges + [now], p)
  {
  }

  lemma ChargeTail(charges: seq<Time>, recent: seq<Time>, now: Time, window: nat)
    requires Sorted(charges) && (forall c :: c in charges ==> c <= now) && Tail(recent, charges, now, window)
    ensures Sorted(charges + [now]) && Tail(recent + [now], charges + [now], now, window)
  {
    var k := |charges| - |recent|;
    assert forall i :: 0 <= i < |charges| ==> charges[i] in charges;
    assert (charges + [now])[k..] == charges[k..] + [now];
  }

  lemma AttemptShape(t: Traced, p: Policy, now: Time, history: bool)
    ensures var r, plan, recent := Step(t, p, Attempt(history), now), PlanFor(t.s, p, now, history), Recent(t.s.restarts, now, p.window);
            && r.clock == now && !r.s.link
            && r.s.restarts == (if plan.charge then recent + [now] else recent)
            && r.charges == (if plan.charge then t.charges + [now] else t.charges)
            && (plan.charge ==> |recent| < p.maxRestarts)
  {
  }

  lemma AttemptBudgeted(t: Traced, p: Policy, now: Time, history: bool)
    requires Budgeted(t, p) && now >= t.clock
    ensures Budgeted(Step(t, p, Attempt(history), now), p)
  {
    var recent := Recent(t.s.restarts, now, p.window);
    TailOfTail(t.s.restarts, t.charges, t.clock, now, p.window);
    AttemptShape(t, p, now, history);
    if PlanFor(t.s, p, now, history).charge {
      ChargeSpaced(t.charges, recent, p, now);
      ChargeTail(t.charges, recent, now, p.window);
    }
  }

  lemma StepBudgeted(t: Traced, p: Policy, a: Action, now: Time)
    requires Budgeted(t, p) && Enabled(t, a, now) && p.healthyReset >= p.window
    ensures Budgeted(Step(t, p, a, now), p)
  {
    match a
    case Attempt(history) => AttemptBudgeted(t, p, now, history);
    case Tick =>
      if EarnsReset(t.s, p, now) {
        assert forall i :: 0 <= i < |t.charges| ==> t.charges[i] in t.charges;
      }
    case _ =>
  }

  lemma {:induction false} RunBudgeted(p: Policy, acts: seq<Timed>, end: Traced)
    requires Runs(p, acts, end) && p.healthyReset >= p.window
    ensures Budgeted(end, p)
    decreases |acts|
  {
    if acts != [] {
      var n := |acts| - 1;
      var mid :| Runs(p, acts[..n], mid) && Enabled(mid, acts[n].act, acts[n].now) && end == Step(mid, p, acts[n].act, acts[n].now);
      RunBudgeted(p, acts[..n], mid);
      StepBudgeted(mid, p, acts[n].act, acts[n].now);
    }
  }

  lemma TailsAgree(a: seq<Time>, b: seq<Time>, charges: seq<Time>, now: Time, window: nat)
    requires Tail(a, charges, now, window) && Tail(b, charges, now, window)
    requires (forall c :: c in a ==> c + window > now) && (forall c :: c in b ==> c + window > now)
    ensures a == b
  {
    assert a != [] ==> a[0] in a;
    assert b != [] ==> b[0] in b;
  }

  /** The list the decision counts is exactly the charges of the last window, although health clears it. */
  lemma DecisionSeesTheWindow(p: Policy, acts: seq<Timed>, end: Traced, now: Time)
    requires Runs(p, acts, end) && p.healthyReset >= p.window && now >= end.clock
    ensures Recent(end.s.restarts, now, p.window) == Recent(end.charges, now, p.window)
  {
    RunBudgeted(p, acts, end);
    TailOfTail(end.s.restarts, end.charges, end.clock, now, p.window);
    RecentIsTail(end.charges, now, p.window);
    RecentIsTail(end.s.restarts, now, p.window);
    TailsAgree(Recent(end.s.restarts, now, p.window), Recent(end.charges, now, p.window), end.charges, now, p.window);
  }

  // ----- at most `maxRestarts` charges in any window -----

  /** The charges in the half-open window that ends at `t`. */
  function Within(charges: seq<Time>, t: Time, window: nat): (r: set<nat>) {
    set i: nat | i < |charges| && charges[i] <= t && charges[i] + window > t
  }

  lemma {:induction false} IntervalSize(r: set<nat>, lo: nat, n: nat)
    requires forall i :: i in r ==> lo <= i < lo + n
    ensures |r| <= n
    decreases n
  {
    if n == 0 {
      assert r == {};
    } else {
      var top := lo + n - 1;
      IntervalSize(r - {top}, lo, n - 1);
      assert r <= (r - {top}) + {top};
    }
  }

  lemma {:induction false} LeastOf(r: set<nat>) returns (lo: nat)
    requires r != {}
    ensures lo in r && forall i :: i in r ==> lo <= i
    decreases |r|
  {
    var x :| x in r;
    if r == {x} {
      lo := x;
    } else {
      assert r - {x} != {};
      var y := LeastOf(r - {x});
      lo := if x < y then x else y;
      assert forall i :: i in r ==> i == x || i in r - {x};
    }
  }

  lemma WindowHolds(charges: seq<Time>, p: Policy, t: Time)
    requires Sorted(charges) && Spaced(charges, p)
    ensures |Within(charges, t, p.window)| <= p.maxRestarts
  {
    var r := Within(charges, t, p.window);
    if r != {} {
      var lo := LeastOf(r);
      forall i | i in r ensures lo <= i < lo + p.maxRestarts {
        var j := lo + p.maxRestarts;
        assert j < |charges| ==> charges[j] - charges[lo] >= p.window;
      }
      IntervalSize(r, lo, p.maxRestarts);
    }
  }

  /** In every run, no window holds more charged restarts than the policy allows. */
  lemma BudgetHolds(p: Policy, acts: seq<Timed>, end: Traced, t: Time)
    requires Runs(p, acts, end) && p.healthyReset >= p.window
    ensures |Within(end.charges, t, p.window)| <= p.maxRestarts
  {
    RunBudgeted(p, acts, end);
    WindowHolds(end.charges, p, t);
  }

  // ----- every ordinary attempt is charged -----

  lemma {:induction false} OrdinaryIsCharged(p: Policy, acts: seq<Timed>, end: Traced)
    requires Runs(p, acts, end)
    ensures end.ordinary == end.charges
    decreases |acts|
  {
    if acts != [] {
      var n := |acts| - 1;
      var mid :| Runs(p, acts[..n], mid) && Enabled(mid, acts[n].act, acts[n].now) && end == Step(mid, p, acts[n].act, acts[n].now);
      OrdinaryIsCharged(p, acts[..n], mid);
    }
  }

  /** In every run, no window holds more attempts that are neither forced nor the escape than the policy allows. */
  lemma AttemptsAreLimited(p: Policy, acts: seq<Timed>, end: Traced, t: Time)
    requires Runs(p, acts, end) && p.healthyReset >= p.window
    ensures |Within(end.ordinary, t, p.window)| <= p.maxRestarts
  {
    OrdinaryIsCharged(p, acts, end);
    BudgetHolds(p, acts, end, t);
  }

  // ----- what an attempt is answered -----

  /** Somebody asked for a restart since the last attempt. */
  function Forced(acts: seq<Timed>): (b: bool) {
    acts != [] &&
    match acts[|acts| - 1].act
    case Force => true
    case Attempt(_) => false
    case _ => Forced(acts[..|acts| - 1])
  }

  /** A renderer of another protocol failed to start since one was last installed. */
  function Mismatched(acts: seq<Timed>): (b: bool) {
    acts != [] &&
    match acts[|acts| - 1].act
    case StartFailed(protocol) => protocol || Mismatched(acts[..|acts| - 1])
    case Install => false
    case _ => Mismatched(acts[..|acts| - 1])
  }

  /** The journal was dropped, and no sustained health has been seen since. */
  predicate EscapeSpent(marks: seq<Mark>) {
    marks != [] && marks[|marks| - 1] == Cleaned
  }

  lemma {:induction false} FlagsKnown(p: Policy, acts: seq<Timed>, end: Traced)
    requires Runs(p, acts, end)
    ensures end.s.forced == Forced(acts) && end.s.mismatch == Mismatched(acts)
    decreases |acts|
  {
    if acts != [] {
      var n := |acts| - 1;
      var mid :| Runs(p, acts[..n], mid) && Enabled(mid, acts[n].act, acts[n].now) && end == Step(mid, p, acts[n].act, acts[n].now);
      FlagsKnown(p, acts[..n], mid);
      FlagStep(mid, p, acts[n].act, acts[n].now);
    }
  }

  lemma FlagStep(t: Traced, p: Policy, a: Action, now: Time)
    ensures Step(t, p, a, now).s.forced == (a.Force? || (!a.Attempt? && t.s.forced))
    ensures Step(t, p, a, now).s.mismatch == ((a.StartFailed? && a.protocol) || (!a.Install? && t.s.mismatch))
  {
  }

  lemma {:induction false} RecentCounts(ts: seq<Time>, now: Time, window: nat)
    requires forall c :: c in ts ==> c <= now
    ensures |Recent(ts, now, window)| == |Within(ts, now, window)|
  {
    if ts == [] {
      assert Within(ts, now, window) == {};
    } else {
      var n := |ts| - 1;
      assert ts[n] in ts && forall c :: c in ts[..n] ==> c in ts;
      RecentCounts(ts[..n], now, window);
      assert Within(ts, now, window) == Within(ts[..n], now, window) + if ts[n] + window > now then {n} else {};
    }
  }

  lemma CountedInWindow(p: Policy, acts: seq<Timed>, end: Traced, now: Time)
    requires Runs(p, acts, end) && p.healthyReset >= p.window && now >= end.clock
    ensures |Recent(end.s.restarts, now, p.window)| == |Within(end.charges, now, p.window)|
  {
    DecisionSeesTheWindow(p, acts, end, now);
    RunBudgeted(p, acts, end);
    RecentCounts(end.charges, now, p.window);
  }

  /**
    In every run, by what happened in it: an attempt drops the journal exactly when the window is
    full, there is history, the escape is unspent and no other protocol was met; it is refused
    exactly when nobody forced it and either another protocol was met, or the window is full and
    the escape is spent or there is no history; and it is charged exactly when it is none of these
    and not forced.
    */
  lemma AnswerIff(p: Policy, acts: seq<Timed>, end: Traced, now: Time, history: bool)
    requires Runs(p, acts, end) && p.healthyReset >= p.window && now >= end.clock
    ensures var full := |Within(end.charges, now, p.window)| >= p.maxRestarts;
            var spent, r := EscapeSpent(end.marks), Step(end, p, Attempt(history), now);
            && (r.s.degraded <==> !Forced(acts) && (Mismatched(acts) || (full && (spent || !history))))
            && (r.marks == end.marks + [Cleaned] <==> full && history && !spent && !Mismatched(acts))
            && (r.charges == end.charges + [now] <==> !full && !Forced(acts) && !Mismatched(acts))
            && !r.s.link && !r.s.accept && !r.s.forced && r.s.mismatch == end.s.mismatch
  {
    FlagsKnown(p, acts, end);
    RunCleans(p, acts, end);
    CountedInWindow(p, acts, end, now);
  }

  // ----- and the reset period is exactly what this needs -----

  function Storm(n: nat): (acts: seq<Timed>) {
    if n == 0 then [] else Storm(n - 1) + [Timed(Attempt(false), 0)]
  }

  function Zeros(n: nat): (r: seq<Time>)
    ensures |r| == n && forall i :: 0 <= i < n ==> r[i] == 0
  {
    if n == 0 then [] else Zeros(n - 1) + [0]
  }

  function AfterStorm(n: nat): (t: Traced) {
    Traced(NONE.(restarts := Zeros(n)), 0, Zeros(n), Zeros(n), [], 0)
  }

  lemma {:induction false} ZerosRecent(n: nat, window: nat)
    requires window > 0
    ensures Recent(Zeros(n), 0, window) == Zeros(n)
  {
    if n > 0 {
      ZerosRecent(n - 1, window);
      assert Zeros(n)[..n - 1] == Zeros(n - 1);
    }
  }

  lemma {:induction false} StormRuns(p: Policy, n: nat)
    requires Sane(p) && n <= p.maxRestarts
    ensures Runs(p, Storm(n), AfterStorm(n))
  {
    if n > 0 {
      StormRuns(p, n - 1);
      ZerosRecent(n - 1, p.window);
      assert Storm(n)[..|Storm(n)| - 1] == Storm(n - 1);
      assert AfterStorm(n) == Step(AfterStorm(n - 1), p, Attempt(false), 0);
    }
  }

  lemma RunsSnoc(p: Policy, acts: seq<Timed>, mid: Traced, a: Action, now: Time)
    requires Runs(p, acts, mid) && Enabled(mid, a, now)
    ensures Runs(p, acts + [Timed(a, now)], Step(mid, p, a, now))
  {
    var more := acts + [Timed(a, now)];
    assert more[..|more| - 1] == acts;
  }

  /** A shorter reset period lets one charge too many into a window. */
  lemma ShortResetOverruns(p: Policy) returns (acts: seq<Timed>, end: Traced)
    requires Sane(p) && p.healthyReset < p.window
    ensures Runs(p, acts, end) && end.charges == Zeros(p.maxRestarts) + [p.healthyReset]
  {
    var n := p.maxRestarts;
    StormRuns(p, n);
    var t0 := AfterStorm(n);
    RunsSnoc(p, Storm(n), t0, Install, 0);
    var t1 := Step(t0, p, Install, 0);
    RunsSnoc(p, Storm(n) + [Timed(Install, 0)], t1, Tick, p.healthyReset);
    var t2 := Step(t1, p, Tick, p.healthyReset);
    acts := Storm(n) + [Timed(Install, 0)] + [Timed(Tick, p.healthyReset)];
    RunsSnoc(p, acts, t2, Attempt(false), p.healthyReset);
    end := Step(t2, p, Attempt(false), p.healthyReset);
    acts := acts + [Timed(Attempt(false), p.healthyReset)];
    assert t2.s.restarts == [] && end.charges == Zeros(n) + [p.healthyReset];
  }

  /** No run ever charges more than the maximum in any window. */
  ghost predicate AlwaysWithin(p: Policy) {
    forall acts, end, t: Time :: Runs(p, acts, end) ==> |Within(end.charges, t, p.window)| <= p.maxRestarts
  }

  lemma {:induction false} AllCounted(charges: seq<Time>, t: Time, window: nat)
    requires forall i :: 0 <= i < |charges| ==> charges[i] <= t && charges[i] + window > t
    ensures |Within(charges, t, window)| == |charges|
  {
    if charges == [] {
      assert Within(charges, t, window) == {};
    } else {
      var n := |charges| - 1;
      AllCounted(charges[..n], t, window);
      assert Within(charges, t, window) == Within(charges[..n], t, window) + {n};
    }
  }

  /** The budget holds in every run, for every window, exactly when sustained health takes at least the window. */
  lemma BudgetHoldsIff(p: Policy)
    requires Sane(p)
    ensures AlwaysWithin(p) <==> p.healthyReset >= p.window
  {
    if p.healthyReset >= p.window {
      forall acts, end, t: Time | Runs(p, acts, end) ensures |Within(end.charges, t, p.window)| <= p.maxRestarts {
        BudgetHolds(p, acts, end, t);
      }
    } else {
      var acts, end := ShortResetOverruns(p);
      AllCounted(end.charges, p.healthyReset, p.window);
    }
  }

  // ----- clean restarts -----

  ghost predicate Alternate(marks: seq<Mark>) {
    forall i, j :: 0 <= i && j == i + 1 && j < |marks| && marks[i] == Cleaned ==> marks[j] == WasReset
  }

  ghost predicate CleanKnown(t: Traced) {
    Alternate(t.marks) && (t.s.cleanStarted <==> t.marks != [] && t.marks[|t.marks| - 1] == Cleaned)
  }

  lemma MarkAdds(marks: seq<Mark>, m: Mark)
    requires Alternate(marks) && (m == Cleaned ==> marks == [] || marks[|marks| - 1] != Cleaned)
    ensures Alternate(marks + [m])
  {
    assert marks != [] ==> marks[|marks| - 1] == Cleaned || marks[|marks| - 1] == WasReset;
  }

  lemma StepCleans(t: Traced, p: Policy, a: Action, now: Time)
    requires CleanKnown(t)
    ensures CleanKnown(Step(t, p, a, now))
  {
    match a
    case Attempt(history) =>
      if PlanFor(t.s, p, now, history).clean {
        MarkAdds(t.marks, Cleaned);
      }
    case Tick =>
      if EarnsReset(t.s, p, now) {
        MarkAdds(t.marks, WasReset);
      }
    case _ =>
  }

  lemma {:induction false} RunCleans(p: Policy, acts: seq<Timed>, end: Traced)
    requires Runs(p, acts, end)
    ensures CleanKnown(end)
    decreases |acts|
  {
    if acts != [] {
      var n := |acts| - 1;
      var mid :| Runs(p, acts[..n], mid) && Enabled(mid, acts[n].act, acts[n].now) && end == Step(mid, p, acts[n].act, acts[n].now);
      RunCleans(p, acts[..n], mid);
      StepCleans(mid, p, acts[n].act, acts[n].now);
    }
  }

  /** Between two restarts that drop the journal there is a reset by sustained health. */
  lemma OneCleanPerReset(p: Policy, acts: seq<Timed>, end: Traced, i: nat, j: nat)
    requires Runs(p, acts, end) && i < j < |end.marks| && end.marks[i] == Cleaned && end.marks[j] == Cleaned
    ensures exists k :: i < k < j && end.marks[k] == WasReset
  {
    RunCleans(p, acts, end);
    assert end.marks[i + 1] == WasReset;
  }

  /** A storm, the escape it earns, and a request to restart once more. */
  function SpentState(p: Policy): (t: Traced) {
    AfterStorm(p.maxRestarts).(s := NONE.(restarts := Zeros(p.maxRestarts), cleanStarted := true, forced := true), marks := [Cleaned])
  }

  lemma StormEscapes(p: Policy)
    requires Sane(p)
    ensures Step(AfterStorm(p.maxRestarts), p, Attempt(true), 0) == SpentState(p).(s := SpentState(p).s.(forced := false))
  {
    ZerosRecent(p.maxRestarts, p.window);
    assert PlanFor(AfterStorm(p.maxRestarts).s, p, 0, true) == Plan(true, false, true);
  }

  lemma EscapeRuns(p: Policy)
    requires Sane(p)
    ensures Runs(p, Storm(p.maxRestarts) + [Timed(Attempt(true), 0)], SpentState(p).(s := SpentState(p).s.(forced := false)))
  {
    StormRuns(p, p.maxRestarts);
    StormEscapes(p);
    RunsSnoc(p, Storm(p.maxRestarts), AfterStorm(p.maxRestarts), Attempt(true), 0);
  }

  lemma SpentRuns(p: Policy) returns (acts: seq<Timed>)
    requires Sane(p)
    ensures Runs(p, acts, SpentState(p))
  {
    var t := SpentState(p).(s := SpentState(p).s.(forced := false));
    acts := Storm(p.maxRestarts) + [Timed(Attempt(true), 0)];
    EscapeRuns(p);
    assert Step(t, p, Force, 0) == SpentState(p);
    RunsSnoc(p, acts, t, Force, 0);
    acts := acts + [Timed(Force, 0)];
  }

  lemma SpentRestarts(p: Policy)
    requires Sane(p)
    ensures var t := Step(SpentState(p), p, Attempt(false), p.window); t.s.cleanStarted && t.s.restarts == [] && !t.s.link && t.clock == p.window
  {
    ZerosLeave(p.maxRestarts, p.window);
  }

  /**
    Sustained health gives the escape back only while a charge is still listed: a forced
    restart whose pruning emptied the list leaves it spent, however long the renderer
    then stays healthy.
    */
  lemma EscapeStaysSpent(p: Policy, later: Time) returns (acts: seq<Timed>, end: Traced)
    requires Sane(p) && later >= p.window + p.healthyReset
    ensures Runs(p, acts, end) && end.clock == later && end.s.link && end.s.accept && end.s.cleanStarted
    ensures end.clock - end.s.healthySince >= p.healthyReset
  {
    acts := SpentRuns(p);
    SpentRestarts(p);
    RunsSnoc(p, acts, SpentState(p), Attempt(false), p.window);
    var t := Step(SpentState(p), p, Attempt(false), p.window);
    acts := acts + [Timed(Attempt(false), p.window)];
    RunsSnoc(p, acts, t, Install, p.window);
    acts := acts + [Timed(Install, p.window)];
    var u := Step(t, p, Install, p.window);
    RunsSnoc(p, acts, u, Tick, later);
    acts, end := acts + [Timed(Tick, later)], Step(u, p, Tick, later);
  }

  lemma {:induction false} ZerosLeave(n: nat, window: nat)
    ensures Recent(Zeros(n), window, window) == []
  {
    if n > 0 {
      ZerosLeave(n - 1, window);
      assert Zeros(n)[..n - 1] == Zeros(n - 1);
    }
  }

  /** While the escape is spent, the list is what the last attempt left of all charges. */
  ghost predicate ListKnown(t: Traced, p: Policy) {
    t.s.cleanStarted ==> t.s.restarts == Recent(t.charges, t.attempted, p.window)
  }

  /** Right after an attempt the list is the charges of the window that ends with it. */
  lemma AttemptListed(t: Traced, p: Policy, now: Time, history: bool)
    requires Budgeted(t, p) && now >= t.clock && p.window > 0
    ensures var r := Step(t, p, Attempt(history), now); r.s.restarts == Recent(r.charges, now, p.window)
  {
    var r := Step(t, p, Attempt(history), now);
    AttemptBudgeted(t, p, now, history);
    AttemptShape(t, p, now, history);
    ListedRecent(t.s.restarts, r.s.restarts, now, p.window);
    TailIsRecent(r.s.restarts, r.charges, now, p.window);
  }

  lemma ListedRecent(was: seq<Time>, list: seq<Time>, now: Time, window: nat)
    requires Sorted(was) && window > 0 && (list == Recent(was, now, window) || list == Recent(was, now, window) + [now])
    ensures forall c :: c in list ==> c + window > now
  {
    RecentIsTail(was, now, window);
  }

  lemma TailIsRecent(list: seq<Time>, charges: seq<Time>, now: Time, window: nat)
    requires Sorted(charges) && Tail(list, charges, now, window) && forall c :: c in list ==> c + window > now
    ensures list == Recent(charges, now, window)
  {
    RecentIsTail(charges, now, window);
    TailsAgree(list, Recent(charges, now, window), charges, now, window);
  }

  lemma StepListed(t: Traced, p: Policy, a: Action, now: Time)
    requires Budgeted(t, p) && ListKnown(t, p) && Enabled(t, a, now) && p.window > 0
    ensures ListKnown(Step(t, p, a, now), p)
  {
    match a
    case Attempt(history) => AttemptListed(t, p, now, history);
    case _ =>
  }

  lemma {:induction false} RunListed(p: Policy, acts: seq<Timed>, end: Traced)
    requires Runs(p, acts, end) && p.healthyReset >= p.window > 0
    ensures ListKnown(end, p)
    decreases |acts|
  {
    if acts != [] {
      var n := |acts| - 1;
      var mid :| Runs(p, acts[..n], mid) && Enabled(mid, acts[n].act, acts[n].now) && end == Step(mid, p, acts[n].act, acts[n].now);
      RunListed(p, acts[..n], mid);
      RunBudgeted(p, acts[..n], mid);
      StepListed(mid, p, acts[n].act, acts[n].now);
    }
  }

  lemma {:induction false} RecentHolds(ts: seq<Time>, now: Time, window: nat)
    ensures Recent(ts, now, window) != [] <==> exists i :: 0 <= i < |ts| && ts[i] + window > now
  {
    if ts != [] {
      var n := |ts| - 1;
      RecentHolds(ts[..n], now, window);
      if i :| 0 <= i < |ts| && ts[i] + window > now {
        assert i == n || ts[..n][i] == ts[i];
      }
    }
  }

  /**
    In every run, a tick of a renderer that has served for the whole healthy period gives the
    spent escape back if and only if some charge lies within the window that ended at the last
    attempt.
    */
  lemma EscapeRegainedIff(p: Policy, acts: seq<Timed>, end: Traced, now: Time)
    requires Runs(p, acts, end) && p.healthyReset >= p.window > 0
    requires end.s.cleanStarted && end.s.link && end.s.accept && now - end.s.healthySince >= p.healthyReset
    ensures !Ticked(end.s, p, now).cleanStarted <==>
            exists i :: 0 <= i < |end.charges| && end.charges[i] + p.window > end.attempted
  {
    RunListed(p, acts, end);
    RecentHolds(end.charges, end.attempted, p.window);
  }

  // ----- serving and degraded -----

  /** The last thing that happened to the renderer is that it was installed. */
  function Serving(acts: seq<Timed>): (b: bool) {
    acts != [] &&
    match acts[|acts| - 1].act
    case Install => true
    case Attempt(_) => false
    case StartFailed(_) => false
    case Lose => false
    case _ => Serving(acts[..|acts| - 1])
  }

  /** When it was. */
  function ServingSince(acts: seq<Timed>): (t: Time) {
    if acts == [] then 0
    else if acts[|acts| - 1].act == Install then acts[|acts| - 1].now
    else ServingSince(acts[..|acts| - 1])
  }

  lemma ServingStep(t: Traced, p: Policy, a: Action, now: Time)
    ensures var r := Step(t, p, a, now).s;
            && (r.link && r.accept <==> a.Install? || ((a.Force? || a.Tick?) && t.s.link && t.s.accept))
            && r.healthySince == (if a.Install? then now else t.s.healthySince)
  {
  }

  /** In every run, the supervisor takes the renderer for serving exactly while it is, and since it was installed. */
  lemma {:induction false} ServingIff(p: Policy, acts: seq<Timed>, end: Traced)
    requires Runs(p, acts, end)
    ensures end.s.link && end.s.accept <==> Serving(acts)
    ensures end.s.healthySince == ServingSince(acts)
    decreases |acts|
  {
    if acts != [] {
      var n := |acts| - 1;
      var mid :| Runs(p, acts[..n], mid) && Enabled(mid, acts[n].act, acts[n].now) && end == Step(mid, p, acts[n].act, acts[n].now);
      ServingIff(p, acts[..n], mid);
      ServingStep(mid, p, acts[n].act, acts[n].now);
    }
  }

  /** The attempt at k was refused. */
  ghost predicate RefusedAt(p: Policy, acts: seq<Timed>, k: nat) {
    k < |acts| && acts[k].act.Attempt? &&
    exists mid :: Runs(p, acts[..k], mid) && !PlanFor(mid.s, p, acts[k].now, acts[k].act.history).allowed
  }

  /** Nothing since then was attempted or installed. */
  ghost predicate QuietSince(acts: seq<Timed>, k: nat) {
    forall j :: k < j < |acts| ==> !acts[j].act.Attempt? && !acts[j].act.Install?
  }

  lemma {:induction false} RunsAreDetermined(p: Policy, acts: seq<Timed>, a: Traced, b: Traced)
    requires Runs(p, acts, a) && Runs(p, acts, b)
    ensures a == b
    decreases |acts|
  {
    if acts != [] {
      var n := |acts| - 1;
      var x :| Runs(p, acts[..n], x) && a == Step(x, p, acts[n].act, acts[n].now);
      var y :| Runs(p, acts[..n], y) && b == Step(y, p, acts[n].act, acts[n].now);
      RunsAreDetermined(p, acts[..n], x, y);
    }
  }

  lemma DegradedStep(t: Traced, p: Policy, a: Action, now: Time)
    ensures Step(t, p, a, now).s.degraded ==
            if a.Attempt? then !PlanFor(t.s, p, now, a.history).allowed else !a.Install? && t.s.degraded
  {
  }

  /** The last attempt was refused, and nothing was installed since. */
  ghost predicate RefusedLast(p: Policy, acts: seq<Timed>) {
    exists k: nat :: RefusedAt(p, acts, k) && QuietSince(acts, k)
  }

  lemma RefusedNow(p: Policy, acts: seq<Timed>, mid: Traced)
    requires acts != [] && Runs(p, acts[..|acts| - 1], mid)
    requires acts[|acts| - 1].act.Attempt? && !PlanFor(mid.s, p, acts[|acts| - 1].now, acts[|acts| - 1].act.history).allowed
    ensures RefusedLast(p, acts)
  {
    assert RefusedAt(p, acts, |acts| - 1) && QuietSince(acts, |acts| - 1);
  }

  lemma RefusedStill(p: Policy, acts: seq<Timed>)
    requires acts != [] && RefusedLast(p, acts[..|acts| - 1]) && !acts[|acts| - 1].act.Attempt? && !acts[|acts| - 1].act.Install?
    ensures RefusedLast(p, acts)
  {
    var front := acts[..|acts| - 1];
    var k: nat :| RefusedAt(p, front, k) && QuietSince(front, k);
    assert front[..k] == acts[..k] && RefusedAt(p, acts, k);
    assert forall j :: k < j < |front| ==> acts[j] == front[j];
    assert QuietSince(acts, k);
  }

  /** In every run, the renderer is reported degraded if and only if its last attempt was refused and it was not installed since. */
  lemma {:induction false} DegradedIff(p: Policy, acts: seq<Timed>, end: Traced)
    requires Runs(p, acts, end)
    ensures end.s.degraded <==> RefusedLast(p, acts)
    decreases |acts|
  {
    if acts != [] {
      var n := |acts| - 1;
      var mid := LastStep(p, acts, end);
      DegradedIff(p, acts[..n], mid);
      DegradedStep(mid, p, acts[n].act, acts[n].now);
      if end.s.degraded {
        if acts[n].act.Attempt? {
          RefusedNow(p, acts, mid);
        } else {
          RefusedStill(p, acts);
        }
      } else if RefusedLast(p, acts) {
        var k: nat :| RefusedAt(p, acts, k) && QuietSince(acts, k);
        LastRefusal(p, acts, mid, k);
      }
    }
  }

  lemma LastStep(p: Policy, acts: seq<Timed>, end: Traced) returns (mid: Traced)
    requires Runs(p, acts, end) && acts != []
    ensures var last := acts[|acts| - 1];
            Runs(p, acts[..|acts| - 1], mid) && Enabled(mid, last.act, last.now) && end == Step(mid, p, last.act, last.now)
  {
    var n := |acts| - 1;
    mid :| Runs(p, acts[..n], mid) && Enabled(mid, acts[n].act, acts[n].now) && end == Step(mid, p, acts[n].act, acts[n].now);
  }

  lemma LastRefusal(p: Policy, acts: seq<Timed>, mid: Traced, k: nat)
    requires acts != [] && RefusedAt(p, acts, k) && QuietSince(acts, k) && Runs(p, acts[..|acts| - 1], mid)
    ensures var n := |acts| - 1;
            if k == n then acts[n].act.Attempt? && !PlanFor(mid.s, p, acts[n].now, acts[n].act.history).allowed
            else !acts[n].act.Attempt? && !acts[n].act.Install? && RefusedAt(p, acts[..n], k) && QuietSince(acts[..n], k)
  {
    var n := |acts| - 1;
    var other :| Runs(p, acts[..k], other) && !PlanFor(other.s, p, acts[k].now, acts[k].act.history).allowed;
    if k == n {
      RunsAreDetermined(p, acts[..n], mid, other);
    } else {
      assert acts[..n][..k] == acts[..k];
    }
  }
}
