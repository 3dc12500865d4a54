/**
  The meaning of the dependency analysis's facts, and an independent reference analysis that
  follows every way a shell can go: refused redirections, sudo, early exits, options set and
  code that is not seen. The reference holds in every execution of every script; the
  analysis itself is measured against it.
  */
module DependencyReference {
  import opened Wrappers
  import opened ShellSyntax
  import opened DependencyAnalysis
  import opened CommandMeaning
  import opened ShellExecution

  // ----- what facts mean -----

  /** The last literal install or removal was a successful install. */
  function Present(trace: seq<Event>): (b: bool) {
    trace != [] &&
    var last := trace[|trace| - 1];
    last == Installed || (last != Removed && Present(trace[..|trace| - 1]))
  }

  /** The install at `site` was reached, and curl was not removed since. */
  function Prepared(trace: seq<Event>, site: Site): (b: bool) {
    trace != [] &&
    var last := trace[|trace| - 1];
    last == Attempted(site) || (last != Removed && Prepared(trace[..|trace| - 1], site))
  }

  ghost predicate Holds(f: Facts, trace: seq<Event>) {
    f.reachable && (f.installed ==> Present(trace)) && (f.fix.Some? ==> Prepared(trace, f.fix.value))
  }

  lemma MergeHolds(a: Facts, b: Facts, trace: seq<Event>)
    requires Holds(a, trace) || Holds(b, trace)
    ensures Holds(Merge(a, b), trace)
  {
  }

  lemma FactsSnoc(f: Facts, trace: seq<Event>, e: Event)
    ensures Present(trace + [e]) == (e == Installed || (e != Removed && Present(trace)))
    ensures forall site :: Prepared(trace + [e], site) == (e == Attempted(site) || (e != Removed && Prepared(trace, site)))
    ensures Holds(f, trace) && e != Removed ==> Holds(f, trace + [e])
  {
    assert (trace + [e])[..|trace|] == trace;
  }

  // ----- entailment -----

  /** Whoever knows `f` knows `claim`. */
  predicate Entails(f: Facts, claim: Facts) {
    claim.reachable && (claim.installed ==> f.installed) && (claim.fix.Some? ==> claim.fix == f.fix)
  }

  /** What is known of those who get there is enough for the claim. */
  predicate Backs(f: Facts, claim: Facts) {
    f.reachable ==> Entails(f, claim)
  }

  /** The shortest trace of which exactly these facts hold. */
  function Witness(f: Facts): (trace: seq<Event>) {
    (if f.fix.Some? then [Attempted(f.fix.value)] else []) + (if f.installed then [Installed] else [])
  }

  lemma AttemptsOnly(site: Site, claim: Option<Site>)
    ensures !Present([Attempted(site)]) && Prepared([Attempted(site)], site)
    ensures claim.Some? && Prepared([Attempted(site)], claim.value) ==> claim == Some(site)
  {
    assert [Attempted(site)][..0] == [];
    assert !Present([]) && (claim.Some? ==> !Prepared([], claim.value));
  }

  lemma WitnessHolds(f: Facts, claim: Facts)
    requires f.reachable
    ensures Holds(f, Witness(f)) && (Present(Witness(f)) ==> f.installed)
    ensures claim.fix.Some? && Prepared(Witness(f), claim.fix.value) ==> claim.fix == f.fix
    ensures Holds(claim, Witness(f)) ==> Entails(f, claim)
  {
    var fixes := if f.fix.Some? then [Attempted(f.fix.value)] else [];
    var trace := Witness(f);
    if f.fix.Some? {
      AttemptsOnly(f.fix.value, claim.fix);
    }
    if f.installed {
      assert trace[..|trace| - 1] == fixes && trace[|trace| - 1] == Installed;
      assert claim.fix.Some? ==> Prepared(trace, claim.fix.value) == Prepared(fixes, claim.fix.value);
    } else {
      assert trace == fixes;
    }
  }

  /** Entailment is exact: it holds if and only if every trace of the one is a trace of the other. */
  lemma EntailsIff(f: Facts, claim: Facts)
    requires f.reachable
    ensures Entails(f, claim) <==> forall trace :: Holds(f, trace) ==> Holds(claim, trace)
  {
    WitnessHolds(f, claim);
  }

  // ----- the reference analysis -----

  /** The facts with which a script ends, and with which it leaves its shell early, each by outcome. */
  datatype Reach = Reach(flow: Flow, left: Flow, mode: Mode)

  const NOFLOW := Flow(NOWHERE, NOWHERE)

  function Join(a: Mode, b: Mode): (r: Mode) {
    Mode(a.strict || b.strict, a.trapped || b.trapped)
  }

  predicate AtMost(a: Mode, b: Mode) {
    (a.strict ==> b.strict) && (a.trapped ==> b.trapped)
  }

  function Claimed(flow: Flow, ok: bool): (f: Facts) {
    if ok then flow.success else flow.failure
  }

  function AfterSuccess(site: Site, e: Effect, input: Facts): (f: Facts) {
    match e
    case InstallsCurl => input.(installed := true)
    case RemovesCurl => input.(installed := false, fix := None)
    case InstallsOther => input.(fix := Some(site))
    case _ => input
  }

  function AfterFailure(site: Site, e: Effect, input: Facts): (f: Facts) {
    if e == InstallsOther then input.(fix := Some(site)) else input
  }

  function KnownResults(site: Site, e: Effect, m: Manner, input: Facts): (flow: Flow) {
    Flow(if m.failing || e == Fails then NOWHERE else AfterSuccess(site, e, input),
         if e == Succeeds && !m.elevated && !m.failing then NOWHERE else AfterFailure(site, e, input))
  }

  function FailsWith(f: Facts, possible: bool): (flow: Flow) {
    if possible then Flow(NOWHERE, f) else NOFLOW
  }

  function KnownLeft(site: Site, e: Effect, m: Manner, input: Facts, mode: Mode, tested: bool): (flow: Flow) {
    var flow := KnownResults(site, e, m, input);
    if m.leaves || m.unseen then flow else FailsWith(flow.failure, AfterCall(m, mode).strict && !tested)
  }

  function KnownCall(site: Site, e: Effect, m: Manner, input: Facts, mode: Mode, tested: bool): (r: Reach) {
    Reach(if m.leaves then NOFLOW else KnownResults(site, e, m, input),
          MergeFlows(FailsWith(input, m.brittle), KnownLeft(site, e, m, input, mode, tested)),
          AfterCall(m, mode))
  }

  /** What is known once a shell is over, by its status, whichever way it went. */
  function KnownStatus(r: Reach): (flow: Flow) {
    var all := MergeFlows(r.flow, r.left);
    var any := Merge(all.success, all.failure);
    if r.mode.trapped then Flow(any, any) else all
  }

  function EarlyLeft(s: Stmt, input: Facts, mode: Mode, shielded: bool): (flow: Flow) {
    FailsWith(input, s.redirect != NoRedirect && (Touchy(s) || (mode.strict && !shielded)))
  }

  function TrapLeft(input: Facts, mode: Mode): (flow: Flow) {
    if mode.trapped then Flow(input, input) else NOFLOW
  }

  /** A command's reach with the statement's own ways to fail and to leave. */
  function StmtReach(s: Stmt, input: Facts, mode: Mode, shielded: bool, r: Reach): (all: Reach) {
    var flow := MergeFlows(FailsWith(input, s.redirect != NoRedirect), r.flow);
    Reach(if s.negated then Flow(flow.failure, flow.success) else flow,
          MergeFlows(TrapLeft(input, mode), MergeFlows(EarlyLeft(s, input, mode, shielded), r.left)),
          Join(mode, r.mode))
  }

  function AndReach(a: Reach, b: Reach): (r: Reach) {
    Reach(Flow(b.flow.success, Merge(a.flow.failure, b.flow.failure)), MergeFlows(a.left, b.left), Join(a.mode, b.mode))
  }

  function OrReach(a: Reach, b: Reach): (r: Reach) {
    Reach(Flow(Merge(a.flow.success, b.flow.success), b.flow.failure), MergeFlows(a.left, b.left), Join(a.mode, b.mode))
  }

  function KnownStmt(ctx: Context, s: Stmt, input: Facts, mode: Mode, tested: bool): (r: Reach)
    decreases s
  {
    if !input.reachable then Reach(NOFLOW, NOFLOW, mode)
    else
      var shielded := tested || s.negated;
      StmtReach(s, input, mode, shielded, KnownCmd(ctx, s.cmd, input, mode, shielded))
  }

  function KnownScript(ctx: Context, s: Script, flow: Flow, mode: Mode, tested: bool): (r: Reach)
    decreases s
  {
    match s
    case End => Reach(flow, NOFLOW, mode)
    case Then(first, rest) =>
      var x := KnownStmt(ctx, first, Merge(flow.success, flow.failure), mode, tested);
      var y := KnownScript(ctx, rest, x.flow, x.mode, tested);
      Reach(y.flow, MergeFlows(x.left, y.left), Join(x.mode, y.mode))
  }

  function KnownCmd(ctx: Context, c: Cmd, input: Facts, mode: Mode, tested: bool): (r: Reach)
    decreases c
  {
    match c
    case Nothing => Reach(Flow(input, NOWHERE), NOFLOW, mode)
    case Call(args, end, assigns) =>
      KnownCall(Site(ctx.command, end, ctx.source), EffectOf(args), MannerOf(args, assigns), input, mode, tested)
    case Block(body) => KnownScript(ctx, body, Flow(input, NOWHERE), mode, tested)
    case Subshell(body) =>
      var flow := KnownStatus(KnownScript(ctx, body, Flow(input, NOWHERE), mode.(trapped := false), tested));
      Reach(flow, FailsWith(flow.failure, mode.strict && !tested), mode)
    case And(x, y) =>
      var a := KnownStmt(ctx, x, input, mode, true);
      AndReach(a, KnownStmt(ctx, y, a.flow.success, a.mode, tested))
    case Or(x, y) =>
      var a := KnownStmt(ctx, x, input, mode, true);
      OrReach(a, KnownStmt(ctx, y, a.flow.failure, a.mode, tested))
    case If(cond, body, otherwise) =>
      var a := KnownScript(ctx, cond, Flow(input, NOWHERE), mode, true);
      var b := KnownScript(ctx, body, Flow(a.flow.success, NOWHERE), a.mode, tested);
      var c := KnownElse(ctx, otherwise, a.flow.failure, a.mode, tested);
      Reach(MergeFlows(b.flow, c.flow), MergeFlows(a.left, MergeFlows(b.left, c.left)), Join(a.mode, Join(b.mode, c.mode)))
  }

  function KnownElse(ctx: Context, e: Else, input: Facts, mode: Mode, tested: bool): (r: Reach)
    decreases e
  {
    match e
    case NoElse => Reach(Flow(input, NOWHERE), NOFLOW, mode)
    case Else(body) => KnownScript(ctx, body, Flow(input, NOWHERE), mode, tested)
    case Elif(clause) => KnownCmd(ctx, clause, input, mode, tested)
  }

  // ----- the reference holds in every execution -----

  ghost predicate Knows(r: Reach, x: Exec) {
    AtMost(x.mode, r.mode) && Holds(Claimed(if x.outcome.Ended? then r.flow else r.left, x.outcome.ok), x.trace)
  }

  lemma MergedHolds(a: Flow, b: Flow, ok: bool, trace: seq<Event>)
    requires Holds(Claimed(a, ok), trace) || Holds(Claimed(b, ok), trace)
    ensures Holds(Claimed(MergeFlows(a, b), ok), trace)
  {
    MergeHolds(Claimed(a, ok), Claimed(b, ok), trace);
  }

  lemma ResultHolds(site: Site, e: Effect, m: Manner, input: Facts, free: bool, trace: seq<Event>)
    requires Holds(input, trace)
    ensures var ok := CallResult(e, m, free);
            Holds(Claimed(KnownResults(site, e, m, input), ok), trace + CallEvents(site, e, ok))
  {
    var ok := CallResult(e, m, free);
    var es := CallEvents(site, e, ok);
    if es == [] {
      assert trace + es == trace;
    } else {
      assert trace + es == trace + [es[0]];
      FactsSnoc(input, trace, es[0]);
    }
  }

  lemma CallKnows(site: Site, e: Effect, m: Manner, input: Facts, mode: Mode, tested: bool,
                  d: Mode, pick: nat -> bool, clock: nat, trace: seq<Event>)
    requires Holds(input, trace) && AtMost(d, mode)
    ensures Knows(KnownCall(site, e, m, input, mode, tested), RunCall(site, e, m, d, tested, pick, clock, trace))
  {
    if m.brittle && pick(clock) {
      MergedHolds(FailsWith(input, true), KnownLeft(site, e, m, input, mode, tested), false, trace);
    } else {
      ResultHolds(site, e, m, input, pick(clock + 1), trace);
      ResultKnows(site, e, m, input, mode, tested, RunCall(site, e, m, d, tested, pick, clock, trace));
    }
  }

  /** A call that was made, whether or not it left the shell. */
  lemma ResultKnows(site: Site, e: Effect, m: Manner, input: Facts, mode: Mode, tested: bool, x: Exec)
    requires AtMost(x.mode, AfterCall(m, mode)) && Holds(Claimed(KnownResults(site, e, m, input), x.outcome.ok), x.trace)
    requires if x.outcome.Exited? then m.leaves || m.unseen || (!x.outcome.ok && AfterCall(m, mode).strict && !tested) else !m.leaves
    ensures Knows(KnownCall(site, e, m, input, mode, tested), x)
  {
    if x.outcome.Exited? {
      MergedHolds(FailsWith(input, m.brittle), KnownLeft(site, e, m, input, mode, tested), x.outcome.ok, x.trace);
    }
  }

  lemma StatusHolds(r: Reach, x: Exec, pick: nat -> bool)
    requires Knows(r, x)
    ensures Holds(Claimed(KnownStatus(r), ShellStatus(x, pick)), x.trace)
  {
    MergedHolds(r.flow, r.left, x.outcome.ok, x.trace);
    var all := MergeFlows(r.flow, r.left);
    MergeHolds(all.success, all.failure, x.trace);
  }

  lemma {:induction false} StmtKnows(ctx: Context, s: Stmt, input: Facts, mode: Mode, tested: bool,
                                     d: Mode, pick: nat -> bool, clock: nat, trace: seq<Event>)
    requires Holds(input, trace) && AtMost(d, mode)
    ensures Knows(KnownStmt(ctx, s, input, mode, tested), RunStmt(ctx, s, d, tested, pick, clock, trace))
    decreases s, 0
  {
    var shielded := tested || s.negated;
    var r := KnownCmd(ctx, s.cmd, input, mode, shielded);
    if Trapped(d, pick, clock) {
      ThreeHold(TrapLeft(input, mode), EarlyLeft(s, input, mode, shielded), r.left, pick(clock + 1), trace);
    } else if Refused(s, pick, clock) {
      RefusedKnows(s, input, mode, shielded, r, d, pick, clock, trace);
    } else {
      CmdKnows(ctx, s.cmd, input, mode, shielded, d, pick, clock + 5, trace);
      RanKnows(s, input, mode, shielded, r, RunCmd(ctx, s.cmd, d, shielded, pick, clock + 5, trace));
    }
  }

  lemma RefusedKnows(s: Stmt, input: Facts, mode: Mode, shielded: bool, r: Reach,
                     d: Mode, pick: nat -> bool, clock: nat, trace: seq<Event>)
    requires Holds(input, trace) && AtMost(d, mode) && Refused(s, pick, clock)
    ensures Knows(StmtReach(s, input, mode, shielded, r), RunRefused(s, d, shielded, pick, clock, trace))
  {
    ThreeHold(TrapLeft(input, mode), EarlyLeft(s, input, mode, shielded), r.left, false, trace);
    MergedHolds(FailsWith(input, true), r.flow, false, trace);
  }

  lemma RanKnows(s: Stmt, input: Facts, mode: Mode, shielded: bool, r: Reach, x: Exec)
    requires Knows(r, x)
    ensures Knows(StmtReach(s, input, mode, shielded, r), x.(outcome := Negated(x.outcome, s.negated)))
  {
    if x.outcome.Exited? {
      ThreeHold(TrapLeft(input, mode), EarlyLeft(s, input, mode, shielded), r.left, x.outcome.ok, x.trace);
    } else {
      MergedHolds(FailsWith(input, s.redirect != NoRedirect), r.flow, x.outcome.ok, x.trace);
    }
  }

  lemma ThreeHold(a: Flow, b: Flow, c: Flow, ok: bool, trace: seq<Event>)
    ensures Holds(Claimed(a, ok), trace) || Holds(Claimed(b, ok), trace) || Holds(Claimed(c, ok), trace) ==>
              Holds(Claimed(MergeFlows(a, MergeFlows(b, c)), ok), trace)
  {
  }

  lemma {:induction false} ScriptKnows(ctx: Context, s: Script, last: bool, flow: Flow, mode: Mode, tested: bool,
                                       d: Mode, pick: nat -> bool, clock: nat, trace: seq<Event>)
    requires Holds(Claimed(flow, last), trace) && AtMost(d, mode)
    ensures Knows(KnownScript(ctx, s, flow, mode, tested), RunScript(ctx, s, last, d, tested, pick, clock, trace))
    decreases s, 0
  {
    match s
    case End =>
    case Then(first, rest) =>
      var input := Merge(flow.success, flow.failure);
      MergeHolds(flow.success, flow.failure, trace);
      StmtKnows(ctx, first, input, mode, tested, d, pick, clock, trace);
      var a, x := KnownStmt(ctx, first, input, mode, tested), RunStmt(ctx, first, d, tested, pick, clock, trace);
      var b := KnownScript(ctx, rest, a.flow, a.mode, tested);
      if x.outcome.Ended? {
        ScriptKnows(ctx, rest, x.outcome.ok, a.flow, a.mode, tested, x.mode, pick, x.clock, x.trace);
        ThenKnows(a, b, Reach(b.flow, MergeFlows(a.left, b.left), Join(a.mode, b.mode)),
                  RunScript(ctx, rest, x.outcome.ok, x.mode, tested, pick, x.clock, x.trace));
      } else {
        MergedHolds(a.left, b.left, x.outcome.ok, x.trace);
      }
  }

  /** What the second part knows, the whole knows. */
  lemma ThenKnows(a: Reach, b: Reach, all: Reach, y: Exec)
    requires Knows(b, y) && all.left == MergeFlows(a.left, b.left) && AtMost(b.mode, all.mode)
    requires Holds(Claimed(b.flow, y.outcome.ok), y.trace) ==> Holds(Claimed(all.flow, y.outcome.ok), y.trace)
    ensures Knows(all, y)
  {
    if y.outcome.Exited? {
      MergedHolds(a.left, b.left, y.outcome.ok, y.trace);
    }
  }

  lemma AndFirst(a: Reach, b: Reach, x: Exec)
    requires Knows(a, x) && x.outcome != Ended(true)
    ensures Knows(AndReach(a, b), x)
  {
    if x.outcome.Exited? {
      MergedHolds(a.left, b.left, x.outcome.ok, x.trace);
    } else {
      MergeHolds(a.flow.failure, b.flow.failure, x.trace);
    }
  }

  lemma AndSecond(a: Reach, b: Reach, y: Exec)
    requires Knows(b, y)
    ensures Knows(AndReach(a, b), y)
  {
    if y.outcome.Exited? {
      MergedHolds(a.left, b.left, y.outcome.ok, y.trace);
    } else if !y.outcome.ok {
      MergeHolds(a.flow.failure, b.flow.failure, y.trace);
    }
  }

  lemma OrFirst(a: Reach, b: Reach, x: Exec)
    requires Knows(a, x) && x.outcome != Ended(false)
    ensures Knows(OrReach(a, b), x)
  {
    if x.outcome.Exited? {
      MergedHolds(a.left, b.left, x.outcome.ok, x.trace);
    } else {
      MergeHolds(a.flow.success, b.flow.success, x.trace);
    }
  }

  lemma OrSecond(a: Reach, b: Reach, y: Exec)
    requires Knows(b, y)
    ensures Knows(OrReach(a, b), y)
  {
    if y.outcome.Exited? {
      MergedHolds(a.left, b.left, y.outcome.ok, y.trace);
    } else if y.outcome.ok {
      MergeHolds(a.flow.success, b.flow.success, y.trace);
    }
  }

  lemma {:induction false} CmdKnows(ctx: Context, c: Cmd, input: Facts, mode: Mode, tested: bool,
                                    d: Mode, pick: nat -> bool, clock: nat, trace: seq<Event>)
    requires Holds(input, trace) && AtMost(d, mode)
    ensures Knows(KnownCmd(ctx, c, input, mode, tested), RunCmd(ctx, c, d, tested, pick, clock, trace))
    decreases c, 1
  {
    match c
    case Nothing =>
    case Call(args, end, assigns) =>
      EffectIsDeed(args);
      CallKnows(Site(ctx.command, end, ctx.source), EffectOf(args), MannerOf(args, assigns), input, mode, tested, d, pick, clock, trace);
    case Block(body) => ScriptKnows(ctx, body, true, Flow(input, NOWHERE), mode, tested, d, pick, clock, trace);
    case Subshell(body) =>
      ScriptKnows(ctx, body, true, Flow(input, NOWHERE), mode.(trapped := false), tested, d.(trapped := false), pick, clock, trace);
      StatusHolds(KnownScript(ctx, body, Flow(input, NOWHERE), mode.(trapped := false), tested),
                  RunScript(ctx, body, true, d.(trapped := false), tested, pick, clock, trace), pick);
    case And(x, y) => AndKnows(ctx, c, input, mode, tested, d, pick, clock, trace);
    case Or(x, y) => OrKnows(ctx, c, input, mode, tested, d, pick, clock, trace);
    case If(cond, body, otherwise) => IfKnows(ctx, c, input, mode, tested, d, pick, clock, trace);
  }

  lemma AndKnows(ctx: Context, c: Cmd, input: Facts, mode: Mode, tested: bool,
                 d: Mode, pick: nat -> bool, clock: nat, trace: seq<Event>)
    requires c.And? && Holds(input, trace) && AtMost(d, mode)
    ensures Knows(KnownCmd(ctx, c, input, mode, tested), RunCmd(ctx, c, d, tested, pick, clock, trace))
    decreases c, 0
  {
    var a, x := KnownStmt(ctx, c.x, input, mode, true), RunStmt(ctx, c.x, d, true, pick, clock, trace);
    var b := KnownStmt(ctx, c.y, a.flow.success, a.mode, tested);
    StmtKnows(ctx, c.x, input, mode, true, d, pick, clock, trace);
    if x.outcome == Ended(true) {
      StmtKnows(ctx, c.y, a.flow.success, a.mode, tested, x.mode, pick, x.clock, x.trace);
      AndSecond(a, b, RunStmt(ctx, c.y, x.mode, tested, pick, x.clock, x.trace));
    } else {
      AndFirst(a, b, x);
    }
  }

  lemma OrKnows(ctx: Context, c: Cmd, input: Facts, mode: Mode, tested: bool,
                d: Mode, pick: nat -> bool, clock: nat, trace: seq<Event>)
    requires c.Or? && Holds(input, trace) && AtMost(d, mode)
    ensures Knows(KnownCmd(ctx, c, input, mode, tested), RunCmd(ctx, c, d, tested, pick, clock, trace))
    decreases c, 0
  {
    var a, x := KnownStmt(ctx, c.x, input, mode, true), RunStmt(ctx, c.x, d, true, pick, clock, trace);
    var b := KnownStmt(ctx, c.y, a.flow.failure, a.mode, tested);
    StmtKnows(ctx, c.x, input, mode, true, d, pick, clock, trace);
    if x.outcome == Ended(false) {
      StmtKnows(ctx, c.y, a.flow.failure, a.mode, tested, x.mode, pick, x.clock, x.trace);
      OrSecond(a, b, RunStmt(ctx, c.y, x.mode, tested, pick, x.clock, x.trace));
    } else {
      OrFirst(a, b, x);
    }
  }

  lemma {:induction false} ElseKnows(ctx: Context, e: Else, input: Facts, mode: Mode, tested: bool,
                                     d: Mode, pick: nat -> bool, clock: nat, trace: seq<Event>)
    requires Holds(input, trace) && AtMost(d, mode)
    ensures Knows(KnownElse(ctx, e, input, mode, tested), RunElse(ctx, e, d, tested, pick, clock, trace))
    decreases e, 0
  {
    match e
    case NoElse =>
    case Else(body) => ScriptKnows(ctx, body, true, Flow(input, NOWHERE), mode, tested, d, pick, clock, trace);
    case Elif(clause) => CmdKnows(ctx, clause, input, mode, tested, d, pick, clock, trace);
  }

  /** One of the two branches was taken. */
  lemma BranchKnows(a: Reach, b: Reach, c: Reach, all: Reach, y: Exec)
    requires Knows(b, y) || Knows(c, y)
    requires all == Reach(MergeFlows(b.flow, c.flow), MergeFlows(a.left, MergeFlows(b.left, c.left)), Join(a.mode, Join(b.mode, c.mode)))
    ensures Knows(all, y)
  {
    if y.outcome.Ended? {
      MergedHolds(b.flow, c.flow, y.outcome.ok, y.trace);
    } else {
      ThreeHold(a.left, b.left, c.left, y.outcome.ok, y.trace);
    }
  }

  lemma IfKnows(ctx: Context, c: Cmd, input: Facts, mode: Mode, tested: bool,
                d: Mode, pick: nat -> bool, clock: nat, trace: seq<Event>)
    requires c.If? && Holds(input, trace) && AtMost(d, mode)
    ensures Knows(KnownCmd(ctx, c, input, mode, tested), RunCmd(ctx, c, d, tested, pick, clock, trace))
    decreases c, 0
  {
    var a, x := KnownScript(ctx, c.cond, Flow(input, NOWHERE), mode, true), RunScript(ctx, c.cond, true, d, true, pick, clock, trace);
    var b := KnownScript(ctx, c.body, Flow(a.flow.success, NOWHERE), a.mode, tested);
    var e := KnownElse(ctx, c.otherwise, a.flow.failure, a.mode, tested);
    ScriptKnows(ctx, c.cond, true, Flow(input, NOWHERE), mode, true, d, pick, clock, trace);
    if x.outcome.Exited? {
      ThreeHold(a.left, b.left, e.left, x.outcome.ok, x.trace);
    } else if x.outcome.ok {
      ScriptKnows(ctx, c.body, true, Flow(a.flow.success, NOWHERE), a.mode, tested, x.mode, pick, x.clock, x.trace);
      BranchKnows(a, b, e, KnownCmd(ctx, c, input, mode, tested), RunScript(ctx, c.body, true, x.mode, tested, pick, x.clock, x.trace));
    } else {
      ElseKnows(ctx, c.otherwise, a.flow.failure, a.mode, tested, x.mode, pick, x.clock, x.trace);
      BranchKnows(a, b, e, KnownCmd(ctx, c, input, mode, tested), RunElse(ctx, c.otherwise, x.mode, tested, pick, x.clock, x.trace));
    }
  }
}
