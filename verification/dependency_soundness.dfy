/**
  Coverage by warnings, measured against the reference: where the analysis treats the uses of
  curl honestly, its warnings cover every execution.
  */
module DependencySoundness {
  import opened Wrappers
  import opened ShellSyntax
  import opened DependencyAnalysis
  import opened CommandMeaning
  import opened ShellExecution
  import opened DependencyReference

  // ----- covered executions -----

  /** Some warning covers a use of curl by `command` after `trace`. */
  ghost predicate CoveredUse(ws: seq<Warning>, command: nat, trace: seq<Event>) {
    exists w :: w in ws && w.command == command && (w.fix.Some? ==> Prepared(trace, w.fix.value))
  }

  /** Every use of curl without a prior install is warned about, with an honest fix if any. */
  ghost predicate Covered(ws: seq<Warning>, trace: seq<Event>) {
    trace == [] ||
    var n := |trace| - 1;
    Covered(ws, trace[..n]) && (trace[n].Used? && !Present(trace[..n]) ==> CoveredUse(ws, trace[n].command, trace[..n]))
  }

  /** Warnings are never dropped, and their fixes never change except to none. */
  ghost predicate Extends(ws: seq<Warning>, ws': seq<Warning>) {
    forall w :: w in ws ==> w in ws' || w.(fix := None) in ws'
  }

  lemma ExtendsTransitive(a: seq<Warning>, b: seq<Warning>, c: seq<Warning>)
    requires Extends(a, b) && Extends(b, c)
    ensures Extends(a, c)
  {
    forall w | w in a ensures w in c || w.(fix := None) in c {
      if w !in b {
        assert w.(fix := None) in b;
        assert w.(fix := None).(fix := None) == w.(fix := None);
      }
    }
  }

  lemma {:induction false} CoveredExtends(ws: seq<Warning>, ws': seq<Warning>, trace: seq<Event>)
    requires Covered(ws, trace) && Extends(ws, ws')
    ensures Covered(ws', trace)
    decreases |trace|
  {
    if trace != [] {
      var n := |trace| - 1;
      CoveredExtends(ws, ws', trace[..n]);
      if trace[n].Used? && !Present(trace[..n]) {
        var w :| w in ws && w.command == trace[n].command && (w.fix.Some? ==> Prepared(trace[..n], w.fix.value));
        var w' := if w in ws' then w else w.(fix := None);
        assert w' in ws';
        assert CoveredUse(ws', trace[n].command, trace[..n]);
      }
    }
  }

  lemma {:induction false} WarnedCovers(ws: seq<Warning>, command: nat, fix: Option<Site>)
    ensures Extends(ws, Warned(ws, command, fix))
    ensures exists w :: w in Warned(ws, command, fix) && w.command == command && (w.fix.Some? ==> w.fix == fix)
  {
    var ws' := Warned(ws, command, fix);
    if ws == [] {
      assert ws'[0] in ws';
    } else if ws[0].command != command {
      WarnedCovers(ws[1..], command, fix);
      var w :| w in Warned(ws[1..], command, fix) && w.command == command && (w.fix.Some? ==> w.fix == fix);
      assert w in ws';
      forall v | v in ws ensures v in ws' || v.(fix := None) in ws' {
        assert v == ws[0] || v in ws[1..];
        assert ws'[0] == ws[0] && ws'[1..] == Warned(ws[1..], command, fix);
      }
    } else {
      assert ws'[0] in ws';
      forall v | v in ws ensures v in ws' || v.(fix := None) in ws' {
        assert v == ws[0] || v in ws[1..];
        assert ws'[1..] == ws[1..];
      }
    }
  }

  // ----- one use of curl -----

  /** What the analysis says about a use that it takes to be reached with `claim`. */
  function UseWarnings(ws: seq<Warning>, command: nat, claim: Facts): (r: seq<Warning>) {
    if claim.reachable && !claim.installed then Warned(ws, command, claim.fix) else ws
  }

  /** Curl is really there, or a warning is given with no fix but one that is really on the way. */
  predicate Honest(known: Facts, claim: Facts) {
    known.installed || (claim.reachable && !claim.installed && (claim.fix.Some? ==> claim.fix == known.fix))
  }

  lemma HonestCovers(ws: seq<Warning>, command: nat, known: Facts, claim: Facts, trace: seq<Event>)
    requires Honest(known, claim) && Holds(known, trace)
    ensures Present(trace) || CoveredUse(UseWarnings(ws, command, claim), command, trace)
  {
    if !known.installed {
      WarnedCovers(ws, command, claim.fix);
    }
  }

  /** Honesty is exact: it holds if and only if the use is covered on every trace that is really possible there. */
  lemma HonestIff(command: nat, known: Facts, claim: Facts)
    requires known.reachable
    ensures Honest(known, claim) <==>
            forall trace :: Holds(known, trace) ==> Present(trace) || CoveredUse(UseWarnings([], command, claim), command, trace)
  {
    if Honest(known, claim) {
      forall trace | Holds(known, trace) ensures Present(trace) || CoveredUse(UseWarnings([], command, claim), command, trace) {
        HonestCovers([], command, known, claim, trace);
      }
    } else {
      WitnessHolds(known, claim);
      assert !Present(Witness(known)) && !CoveredUse(UseWarnings([], command, claim), command, Witness(known));
    }
  }

  lemma CoveredSnoc(ws: seq<Warning>, trace: seq<Event>, e: Event)
    requires Covered(ws, trace)
    requires e.Used? && !Present(trace) ==> CoveredUse(ws, e.command, trace)
    ensures Covered(ws, trace + [e])
  {
    assert (trace + [e])[..|trace|] == trace;
  }

  /** Analysing more code only ever extends the warnings. */
  lemma {:induction false} ScriptExtends(ctx: Context, s: Script, flow: Flow, ws: seq<Warning>)
    ensures Extends(ws, ScriptFlow(ctx, s, flow, ws).warnings)
    decreases s
  {
    match s
    case End =>
    case Then(first, rest) =>
      var input := Merge(flow.success, flow.failure);
      StmtExtends(ctx, first, input, ws);
      var r := StmtFlow(ctx, first, input, ws);
      ScriptExtends(ctx, rest, r.flow, r.warnings);
      ExtendsTransitive(ws, r.warnings, ScriptFlow(ctx, rest, r.flow, r.warnings).warnings);
  }

  lemma {:induction false} StmtExtends(ctx: Context, s: Stmt, input: Facts, ws: seq<Warning>)
    ensures Extends(ws, StmtFlow(ctx, s, input, ws).warnings)
    decreases s
  {
    CmdExtends(ctx, s.cmd, input, ws);
  }

  lemma CallExtends(site: Site, e: Effect, input: Facts, ws: seq<Warning>)
    ensures Extends(ws, CallFlow(site, e, input, ws).warnings)
  {
    WarnedCovers(ws, site.command, input.fix);
  }

  lemma {:induction false} CmdExtends(ctx: Context, c: Cmd, input: Facts, ws: seq<Warning>)
    ensures Extends(ws, CmdFlow(ctx, c, input, ws).warnings)
    decreases c
  {
    match c
    case Nothing =>
    case Call(args, end, _) => CallExtends(Site(ctx.command, end, ctx.source), EffectOf(args), input, ws);
    case Block(body) => ScriptExtends(ctx, body, Flow(input, NOWHERE), ws);
    case Subshell(body) => ScriptExtends(ctx, body, Flow(input, NOWHERE), ws);
    case And(x, y) =>
      var left := StmtFlow(ctx, x, input, ws);
      StmtExtends(ctx, x, input, ws);
      StmtExtends(ctx, y, left.flow.success, left.warnings);
      ExtendsTransitive(ws, left.warnings, StmtFlow(ctx, y, left.flow.success, left.warnings).warnings);
    case Or(x, y) =>
      var left := StmtFlow(ctx, x, input, ws);
      StmtExtends(ctx, x, input, ws);
      StmtExtends(ctx, y, left.flow.failure, left.warnings);
      ExtendsTransitive(ws, left.warnings, StmtFlow(ctx, y, left.flow.failure, left.warnings).warnings);
    case If(cond, body, otherwise) =>
      var condition := ScriptFlow(ctx, cond, Flow(input, NOWHERE), ws);
      var then_ := ScriptFlow(ctx, body, Flow(condition.flow.success, NOWHERE), condition.warnings);
      ScriptExtends(ctx, cond, Flow(input, NOWHERE), ws);
      ScriptExtends(ctx, body, Flow(condition.flow.success, NOWHERE), condition.warnings);
      ElseExtends(ctx, otherwise, condition.flow.failure, then_.warnings);
      ExtendsTransitive(ws, condition.warnings, then_.warnings);
      ExtendsTransitive(ws, then_.warnings, ElseFlow(ctx, otherwise, condition.flow.failure, then_.warnings).warnings);
  }

  lemma {:induction false} ElseExtends(ctx: Context, e: Else, input: Facts, ws: seq<Warning>)
    ensures Extends(ws, ElseFlow(ctx, e, input, ws).warnings)
    decreases e
  {
    match e
    case NoElse =>
    case Else(body) => ScriptExtends(ctx, body, Flow(input, NOWHERE), ws);
    case Elif(clause) => CmdExtends(ctx, clause, input, ws);
  }

  // ----- which scripts the analysis is right about -----

  /** No analysed curl call, wherever. */
  predicate UseFreeStmt(s: Stmt) {
    UseFreeCmd(s.cmd)
  }

  predicate UseFreeScript(s: Script) {
    s.Then? ==> UseFreeStmt(s.first) && UseFreeScript(s.rest)
  }

  predicate UseFreeCmd(c: Cmd) {
    match c
    case Nothing => true
    case Call(args, _, _) => EffectOf(args) != UsesCurl
    case Block(body) => UseFreeScript(body)
    case Subshell(body) => UseFreeScript(body)
    case And(x, y) => UseFreeStmt(x) && UseFreeStmt(y)
    case Or(x, y) => UseFreeStmt(x) && UseFreeStmt(y)
    case If(cond, body, otherwise) => UseFreeScript(cond) && UseFreeScript(body) && UseFreeElse(otherwise)
  }

  predicate UseFreeElse(e: Else) {
    match e
    case NoElse => true
    case Else(body) => UseFreeScript(body)
    case Elif(clause) => UseFreeCmd(clause)
  }

  /**
    Every use of curl that can really be reached is treated honestly. `input` and `flow` are what
    the analysis claims, `known` is what the reference knows. Claims that no use depends on may
    be wrong. A statement the analysis takes for dead must have no use.
    */
  predicate RightStmt(ctx: Context, s: Stmt, input: Facts, ws: seq<Warning>, known: Facts, mode: Mode, tested: bool)
    decreases s
  {
    known.reachable ==>
      if input.reachable then RightCmd(ctx, s.cmd, input, ws, known, mode, tested || s.negated) else UseFreeStmt(s)
  }

  predicate RightScript(ctx: Context, s: Script, flow: Flow, ws: seq<Warning>, known: Flow, mode: Mode, tested: bool)
    decreases s
  {
    s.Then? ==>
      var input, there := Merge(flow.success, flow.failure), Merge(known.success, known.failure);
      var r, k := StmtFlow(ctx, s.first, input, ws), KnownStmt(ctx, s.first, there, mode, tested);
      && RightStmt(ctx, s.first, input, ws, there, mode, tested)
      && RightScript(ctx, s.rest, r.flow, r.warnings, k.flow, k.mode, tested)
  }

  predicate RightCmd(ctx: Context, c: Cmd, input: Facts, ws: seq<Warning>, known: Facts, mode: Mode, tested: bool)
    decreases c
  {
    match c
    case Nothing => true
    case Call(args, _, _) => EffectOf(args) == UsesCurl && known.reachable ==> Honest(known, input)
    case Block(body) => RightScript(ctx, body, Flow(input, NOWHERE), ws, Flow(known, NOWHERE), mode, tested)
    case Subshell(body) =>
      RightScript(ctx, body, Flow(input, NOWHERE), ws, Flow(known, NOWHERE), mode.(trapped := false), tested)
    case And(x, y) =>
      var r, k := StmtFlow(ctx, x, input, ws), KnownStmt(ctx, x, known, mode, true);
      && RightStmt(ctx, x, input, ws, known, mode, true)
      && RightStmt(ctx, y, r.flow.success, r.warnings, k.flow.success, k.mode, tested)
    case Or(x, y) =>
      var r, k := StmtFlow(ctx, x, input, ws), KnownStmt(ctx, x, known, mode, true);
      && RightStmt(ctx, x, input, ws, known, mode, true)
      && RightStmt(ctx, y, r.flow.failure, r.warnings, k.flow.failure, k.mode, tested)
    case If(cond, body, otherwise) =>
      var r, k := ScriptFlow(ctx, cond, Flow(input, NOWHERE), ws), KnownScript(ctx, cond, Flow(known, NOWHERE), mode, true);
      var q := ScriptFlow(ctx, body, Flow(r.flow.success, NOWHERE), r.warnings);
      && RightScript(ctx, cond, Flow(input, NOWHERE), ws, Flow(known, NOWHERE), mode, true)
      && RightScript(ctx, body, Flow(r.flow.success, NOWHERE), r.warnings, Flow(k.flow.success, NOWHERE), k.mode, tested)
      && RightElse(ctx, otherwise, r.flow.failure, q.warnings, k.flow.failure, k.mode, tested)
  }

  predicate RightElse(ctx: Context, e: Else, input: Facts, ws: seq<Warning>, known: Facts, mode: Mode, tested: bool)
    decreases e
  {
    match e
    case NoElse => true
    case Else(body) => RightScript(ctx, body, Flow(input, NOWHERE), ws, Flow(known, NOWHERE), mode, tested)
    case Elif(clause) => RightCmd(ctx, clause, input, ws, known, mode, tested)
  }

  // ----- statements without a use -----

  lemma UnusedCall(ws: seq<Warning>, site: Site, e: Effect, m: Manner, d: Mode, tested: bool, pick: nat -> bool, clock: nat,
                   trace: seq<Event>)
    requires Covered(ws, trace) && e != UsesCurl
    ensures Covered(ws, RunCall(site, e, m, d, tested, pick, clock, trace).trace)
  {
    var es := CallEvents(site, e, CallResult(e, m, pick(clock + 1)));
    if es == [] {
      assert trace + es == trace;
    } else {
      CoveredSnoc(ws, trace, es[0]);
    }
  }

  lemma {:induction false} UnusedStmt(ws: seq<Warning>, ctx: Context, s: Stmt, d: Mode, tested: bool, pick: nat -> bool,
                                      clock: nat, trace: seq<Event>)
    requires Covered(ws, trace) && UseFreeStmt(s)
    ensures Covered(ws, RunStmt(ctx, s, d, tested, pick, clock, trace).trace)
    decreases s, 0
  {
    UnusedCmd(ws, ctx, s.cmd, d, tested || s.negated, pick, clock + 5, trace);
  }

  lemma {:induction false} UnusedScript(ws: seq<Warning>, ctx: Context, s: Script, last: bool, d: Mode, tested: bool,
                                        pick: nat -> bool, clock: nat, trace: seq<Event>)
    requires Covered(ws, trace) && UseFreeScript(s)
    ensures Covered(ws, RunScript(ctx, s, last, d, tested, pick, clock, trace).trace)
    decreases s, 0
  {
    if s.Then? {
      var x := RunStmt(ctx, s.first, d, tested, pick, clock, trace);
      UnusedStmt(ws, ctx, s.first, d, tested, pick, clock, trace);
      UnusedScript(ws, ctx, s.rest, x.outcome.ok, x.mode, tested, pick, x.clock, x.trace);
    }
  }

  lemma {:induction false} UnusedCmd(ws: seq<Warning>, ctx: Context, c: Cmd, d: Mode, tested: bool, pick: nat -> bool,
                                     clock: nat, trace: seq<Event>)
    requires Covered(ws, trace) && UseFreeCmd(c)
    ensures Covered(ws, RunCmd(ctx, c, d, tested, pick, clock, trace).trace)
    decreases c, 1
  {
    match c
    case Nothing =>
    case Call(args, end, assigns) =>
      EffectIsDeed(args);
      UnusedCall(ws, Site(ctx.command, end, ctx.source), EffectOf(args), MannerOf(args, assigns), d, tested, pick, clock, trace);
    case Block(body) => UnusedScript(ws, ctx, body, true, d, tested, pick, clock, trace);
    case Subshell(body) => UnusedScript(ws, ctx, body, true, d.(trapped := false), tested, pick, clock, trace);
    case And(a, b) =>
      var x := RunStmt(ctx, a, d, true, pick, clock, trace);
      UnusedStmt(ws, ctx, a, d, true, pick, clock, trace);
      UnusedStmt(ws, ctx, b, x.mode, tested, pick, x.clock, x.trace);
    case Or(a, b) =>
      var x := RunStmt(ctx, a, d, true, pick, clock, trace);
      UnusedStmt(ws, ctx, a, d, true, pick, clock, trace);
      UnusedStmt(ws, ctx, b, x.mode, tested, pick, x.clock, x.trace);
    case If(cond, body, otherwise) =>
      var x := RunScript(ctx, cond, true, d, true, pick, clock, trace);
      UnusedScript(ws, ctx, cond, true, d, true, pick, clock, trace);
      UnusedScript(ws, ctx, body, true, x.mode, tested, pick, x.clock, x.trace);
      UnusedElse(ws, ctx, otherwise, x.mode, tested, pick, x.clock, x.trace);
  }

  lemma {:induction false} UnusedElse(ws: seq<Warning>, ctx: Context, e: Else, d: Mode, tested: bool, pick: nat -> bool,
                                      clock: nat, trace: seq<Event>)
    requires Covered(ws, trace) && UseFreeElse(e)
    ensures Covered(ws, RunElse(ctx, e, d, tested, pick, clock, trace).trace)
    decreases e, 0
  {
    match e
    case NoElse =>
    case Else(body) => UnusedScript(ws, ctx, body, true, d, tested, pick, clock, trace);
    case Elif(clause) => UnusedCmd(ws, ctx, clause, d, tested, pick, clock, trace);
  }

  // ----- every execution is covered -----

  lemma CallCovered(site: Site, e: Effect, m: Manner, input: Facts, ws: seq<Warning>, known: Facts, d: Mode, tested: bool,
                    pick: nat -> bool, clock: nat, trace: seq<Event>)
    requires (e == UsesCurl ==> Honest(known, input)) && Holds(known, trace) && Covered(ws, trace)
    ensures Covered(CallFlow(site, e, input, ws).warnings, RunCall(site, e, m, d, tested, pick, clock, trace).trace)
  {
    var more := CallFlow(site, e, input, ws).warnings;
    CallExtends(site, e, input, ws);
    CoveredExtends(ws, more, trace);
    if e == UsesCurl {
      HonestCovers(ws, site.command, known, input, trace);
      CoveredSnoc(more, trace, Used(site.command));
    } else {
      UnusedCall(more, site, e, m, d, tested, pick, clock, trace);
    }
  }

  lemma {:induction false} StmtCovered(ctx: Context, s: Stmt, input: Facts, ws: seq<Warning>, known: Facts, mode: Mode, tested: bool,
                                       d: Mode, pick: nat -> bool, clock: nat, trace: seq<Event>)
    requires RightStmt(ctx, s, input, ws, known, mode, tested) && Holds(known, trace) && Covered(ws, trace) && AtMost(d, mode)
    ensures Covered(StmtFlow(ctx, s, input, ws).warnings, RunStmt(ctx, s, d, tested, pick, clock, trace).trace)
    decreases s, 0
  {
    if input.reachable {
      StmtExtends(ctx, s, input, ws);
      CoveredExtends(ws, StmtFlow(ctx, s, input, ws).warnings, trace);
      CmdCovered(ctx, s.cmd, input, ws, known, mode, tested || s.negated, d, pick, clock + 5, trace);
    } else {
      UnusedStmt(ws, ctx, s, d, tested, pick, clock, trace);
    }
  }

  lemma {:induction false} ScriptCovered(ctx: Context, s: Script, last: bool, flow: Flow, ws: seq<Warning>, known: Flow, mode: Mode,
                                         tested: bool, d: Mode, pick: nat -> bool, clock: nat, trace: seq<Event>)
    requires RightScript(ctx, s, flow, ws, known, mode, tested)
    requires Holds(Claimed(known, last), trace) && Covered(ws, trace) && AtMost(d, mode)
    ensures Covered(ScriptFlow(ctx, s, flow, ws).warnings, RunScript(ctx, s, last, d, tested, pick, clock, trace).trace)
    decreases s, 0
  {
    match s
    case End =>
    case Then(first, rest) =>
      var input, there := Merge(flow.success, flow.failure), Merge(known.success, known.failure);
      MergeHolds(known.success, known.failure, trace);
      StmtKnows(ctx, first, there, mode, tested, d, pick, clock, trace);
      StmtCovered(ctx, first, input, ws, there, mode, tested, d, pick, clock, trace);
      var r, k := StmtFlow(ctx, first, input, ws), KnownStmt(ctx, first, there, mode, tested);
      var x := RunStmt(ctx, first, d, tested, pick, clock, trace);
      if x.outcome.Ended? {
        ScriptCovered(ctx, rest, x.outcome.ok, r.flow, r.warnings, k.flow, k.mode, tested, x.mode, pick, x.clock, x.trace);
      } else {
        ScriptExtends(ctx, rest, r.flow, r.warnings);
        CoveredExtends(r.warnings, ScriptFlow(ctx, rest, r.flow, r.warnings).warnings, x.trace);
      }
  }

  lemma {:induction false} CmdCovered(ctx: Context, c: Cmd, input: Facts, ws: seq<Warning>, known: Facts, mode: Mode, tested: bool,
                                      d: Mode, pick: nat -> bool, clock: nat, trace: seq<Event>)
    requires RightCmd(ctx, c, input, ws, known, mode, tested) && Holds(known, trace) && Covered(ws, trace) && AtMost(d, mode)
    ensures Covered(CmdFlow(ctx, c, input, ws).warnings, RunCmd(ctx, c, d, tested, pick, clock, trace).trace)
    decreases c, 1
  {
    match c
    case Nothing =>
    case Call(args, end, assigns) =>
      EffectIsDeed(args);
      CallCovered(Site(ctx.command, end, ctx.source), EffectOf(args), MannerOf(args, assigns), input, ws, known, d, tested, pick, clock, trace);
    case Block(body) =>
      ScriptCovered(ctx, body, true, Flow(input, NOWHERE), ws, Flow(known, NOWHERE), mode, tested, d, pick, clock, trace);
    case Subshell(body) =>
      ScriptCovered(ctx, body, true, Flow(input, NOWHERE), ws, Flow(known, NOWHERE), mode.(trapped := false), tested,
                    d.(trapped := false), pick, clock, trace);
    case And(a, b) => AndCovered(ctx, c, input, ws, known, mode, tested, d, pick, clock, trace);
    case Or(a, b) => OrCovered(ctx, c, input, ws, known, mode, tested, d, pick, clock, trace);
    case If(cond, body, otherwise) => IfCovered(ctx, c, input, ws, known, mode, tested, d, pick, clock, trace);
  }

  lemma AndCovered(ctx: Context, c: Cmd, input: Facts, ws: seq<Warning>, known: Facts, mode: Mode, tested: bool,
                   d: Mode, pick: nat -> bool, clock: nat, trace: seq<Event>)
    requires c.And? && RightCmd(ctx, c, input, ws, known, mode, tested)
    requires Holds(known, trace) && Covered(ws, trace) && AtMost(d, mode)
    ensures Covered(CmdFlow(ctx, c, input, ws).warnings, RunCmd(ctx, c, d, tested, pick, clock, trace).trace)
    decreases c, 0
  {
    StmtKnows(ctx, c.x, known, mode, true, d, pick, clock, trace);
    StmtCovered(ctx, c.x, input, ws, known, mode, true, d, pick, clock, trace);
    var r, k, x := StmtFlow(ctx, c.x, input, ws), KnownStmt(ctx, c.x, known, mode, true), RunStmt(ctx, c.x, d, true, pick, clock, trace);
    if x.outcome == Ended(true) {
      StmtCovered(ctx, c.y, r.flow.success, r.warnings, k.flow.success, k.mode, tested, x.mode, pick, x.clock, x.trace);
    } else {
      StmtExtends(ctx, c.y, r.flow.success, r.warnings);
      CoveredExtends(r.warnings, StmtFlow(ctx, c.y, r.flow.success, r.warnings).warnings, x.trace);
    }
  }

  lemma OrCovered(ctx: Context, c: Cmd, input: Facts, ws: seq<Warning>, known: Facts, mode: Mode, tested: bool,
                  d: Mode, pick: nat -> bool, clock: nat, trace: seq<Event>)
    requires c.Or? && RightCmd(ctx, c, input, ws, known, mode, tested)
    requires Holds(known, trace) && Covered(ws, trace) && AtMost(d, mode)
    ensures Covered(CmdFlow(ctx, c, input, ws).warnings, RunCmd(ctx, c, d, tested, pick, clock, trace).trace)
    decreases c, 0
  {
    StmtKnows(ctx, c.x, known, mode, true, d, pick, clock, trace);
    StmtCovered(ctx, c.x, input, ws, known, mode, true, d, pick, clock, trace);
    var r, k, x := StmtFlow(ctx, c.x, input, ws), KnownStmt(ctx, c.x, known, mode, true), RunStmt(ctx, c.x, d, true, pick, clock, trace);
    if x.outcome == Ended(false) {
      StmtCovered(ctx, c.y, r.flow.failure, r.warnings, k.flow.failure, k.mode, tested, x.mode, pick, x.clock, x.trace);
    } else {
      StmtExtends(ctx, c.y, r.flow.failure, r.warnings);
      CoveredExtends(r.warnings, StmtFlow(ctx, c.y, r.flow.failure, r.warnings).warnings, x.trace);
    }
  }

  lemma {:induction false} ElseCovered(ctx: Context, e: Else, input: Facts, ws: seq<Warning>, known: Facts, mode: Mode, tested: bool,
                                       d: Mode, pick: nat -> bool, clock: nat, trace: seq<Event>)
    requires RightElse(ctx, e, input, ws, known, mode, tested) && Holds(known, trace) && Covered(ws, trace) && AtMost(d, mode)
    ensures Covered(ElseFlow(ctx, e, input, ws).warnings, RunElse(ctx, e, d, tested, pick, clock, trace).trace)
    decreases e, 0
  {
    match e
    case NoElse =>
    case Else(body) =>
      ScriptCovered(ctx, body, true, Flow(input, NOWHERE), ws, Flow(known, NOWHERE), mode, tested, d, pick, clock, trace);
    case Elif(clause) => CmdCovered(ctx, clause, input, ws, known, mode, tested, d, pick, clock, trace);
  }

  lemma IfCovered(ctx: Context, c: Cmd, input: Facts, ws: seq<Warning>, known: Facts, mode: Mode, tested: bool,
                  d: Mode, pick: nat -> bool, clock: nat, trace: seq<Event>)
    requires c.If? && RightCmd(ctx, c, input, ws, known, mode, tested)
    requires Holds(known, trace) && Covered(ws, trace) && AtMost(d, mode)
    ensures Covered(CmdFlow(ctx, c, input, ws).warnings, RunCmd(ctx, c, d, tested, pick, clock, trace).trace)
    decreases c, 0
  {
    var r, k := ScriptFlow(ctx, c.cond, Flow(input, NOWHERE), ws), KnownScript(ctx, c.cond, Flow(known, NOWHERE), mode, true);
    var q := ScriptFlow(ctx, c.body, Flow(r.flow.success, NOWHERE), r.warnings);
    var more := ElseFlow(ctx, c.otherwise, r.flow.failure, q.warnings).warnings;
    var x := RunScript(ctx, c.cond, true, d, true, pick, clock, trace);
    ScriptKnows(ctx, c.cond, true, Flow(known, NOWHERE), mode, true, d, pick, clock, trace);
    ScriptCovered(ctx, c.cond, true, Flow(input, NOWHERE), ws, Flow(known, NOWHERE), mode, true, d, pick, clock, trace);
    ScriptExtends(ctx, c.body, Flow(r.flow.success, NOWHERE), r.warnings);
    ElseExtends(ctx, c.otherwise, r.flow.failure, q.warnings);
    CoveredExtends(r.warnings, q.warnings, x.trace);
    if x.outcome.Exited? {
      CoveredExtends(q.warnings, more, x.trace);
    } else if x.outcome.ok {
      ScriptCovered(ctx, c.body, true, Flow(r.flow.success, NOWHERE), r.warnings, Flow(k.flow.success, NOWHERE), k.mode, tested,
                    x.mode, pick, x.clock, x.trace);
      CoveredExtends(q.warnings, more, RunScript(ctx, c.body, true, x.mode, tested, pick, x.clock, x.trace).trace);
    } else {
      ElseCovered(ctx, c.otherwise, r.flow.failure, q.warnings, k.flow.failure, k.mode, tested, x.mode, pick, x.clock, x.trace);
    }
  }

  // ----- whole reports -----

  /** Running the saved blocks in order, each in a shell of its own; each must succeed before the next one starts. */
  datatype Bootstrap = Bootstrap(alive: bool, clock: nat, trace: seq<Event>)

  /** A block the analysis could not read does unknown things, but no analysed curl call. */
  function RunBlock(b: Bootstrap, p: Progress, i: nat, source: Source, pick: nat -> bool, unknown: nat -> seq<Event>): (r: Bootstrap) {
    if !b.alive then b
    else if Analysable(p, i, source) then
      var x := RunScript(Context(i, source.text), source.script.value, true, CALM, false, pick, b.clock, b.trace);
      Bootstrap(ShellStatus(x, pick), x.clock + 1, x.trace)
    else Bootstrap(pick(b.clock), b.clock + 1, b.trace + unknown(i))
  }

  function RunBlocks(sources: seq<Source>, pick: nat -> bool, unknown: nat -> seq<Event>): (r: Bootstrap) {
    if sources == [] then Bootstrap(true, 0, [])
    else
      var n := |sources| - 1;
      RunBlock(RunBlocks(sources[..n], pick, unknown), AdvanceAll(sources[..n]), n, sources[n], pick, unknown)
  }

  /** What is really known after a block that succeeded. */
  function KnownBlock(p: Progress, i: nat, source: Source, known: Facts): (f: Facts) {
    if Analysable(p, i, source)
    then KnownStatus(KnownScript(Context(i, source.text), source.script.value, Flow(known, NOWHERE), CALM, false)).success
    else ANYTHING
  }

  function KnownBlocks(sources: seq<Source>): (f: Facts) {
    if sources == [] then ANYTHING
    else
      var n := |sources| - 1;
      KnownBlock(AdvanceAll(sources[..n]), n, sources[n], KnownBlocks(sources[..n]))
  }

  predicate RightBlock(p: Progress, i: nat, source: Source, known: Facts) {
    Analysable(p, i, source) && known.reachable ==>
      RightScript(Context(i, source.text), source.script.value, Flow(p.facts, NOWHERE), p.warnings, Flow(known, NOWHERE), CALM, false)
  }

  predicate RightAt(sources: seq<Source>, i: nat)
    requires i < |sources|
  {
    RightBlock(AdvanceAll(sources[..i]), i, sources[i], KnownBlocks(sources[..i]))
  }

  ghost predicate RightSources(sources: seq<Source>) {
    forall i :: 0 <= i < |sources| ==> RightAt(sources, i)
  }

  lemma {:induction false} CoveredAppend(ws: seq<Warning>, trace: seq<Event>, es: seq<Event>)
    requires Covered(ws, trace) && forall i :: 0 <= i < |es| ==> !es[i].Used?
    ensures Covered(ws, trace + es)
    decreases |es|
  {
    if es == [] {
      assert trace + es == trace;
    } else {
      var n := |es| - 1;
      CoveredAppend(ws, trace, es[..n]);
      CoveredSnoc(ws, trace + es[..n], es[n]);
      assert trace + es[..n] + [es[n]] == trace + es;
    }
  }

  lemma BlockCovered(b: Bootstrap, p: Progress, i: nat, source: Source, known: Facts, pick: nat -> bool, unknown: nat -> seq<Event>)
    requires Covered(p.warnings, b.trace) && (b.alive ==> Holds(known, b.trace)) && RightBlock(p, i, source, known)
    requires forall k :: 0 <= k < |unknown(i)| ==> !unknown(i)[k].Used?
    ensures Covered(Advance(p, i, source).warnings, RunBlock(b, p, i, source, pick, unknown).trace)
  {
    if Analysable(p, i, source) {
      var ctx, script := Context(i, source.text), source.script.value;
      ScriptExtends(ctx, script, Flow(p.facts, NOWHERE), p.warnings);
      CoveredExtends(p.warnings, ScriptFlow(ctx, script, Flow(p.facts, NOWHERE), p.warnings).warnings, b.trace);
      if b.alive {
        ScriptCovered(ctx, script, true, Flow(p.facts, NOWHERE), p.warnings, Flow(known, NOWHERE), CALM, false, CALM, pick, b.clock, b.trace);
      }
    } else {
      CoveredAppend(p.warnings, b.trace, unknown(i));
    }
  }

  lemma BlockKnows(b: Bootstrap, p: Progress, i: nat, source: Source, known: Facts, pick: nat -> bool, unknown: nat -> seq<Event>)
    requires b.alive ==> Holds(known, b.trace)
    ensures RunBlock(b, p, i, source, pick, unknown).alive ==>
              Holds(KnownBlock(p, i, source, known), RunBlock(b, p, i, source, pick, unknown).trace)
  {
    if b.alive && Analysable(p, i, source) {
      var ctx, script := Context(i, source.text), source.script.value;
      ScriptKnows(ctx, script, true, Flow(known, NOWHERE), CALM, false, CALM, pick, b.clock, b.trace);
      StatusHolds(KnownScript(ctx, script, Flow(known, NOWHERE), CALM, false),
                  RunScript(ctx, script, true, CALM, false, pick, b.clock, b.trace), pick);
    }
  }

  /** The reference is right about every list of blocks, whatever they are. */
  lemma {:induction false} BlocksKnown(sources: seq<Source>, pick: nat -> bool, unknown: nat -> seq<Event>)
    ensures RunBlocks(sources, pick, unknown).alive ==> Holds(KnownBlocks(sources), RunBlocks(sources, pick, unknown).trace)
    decreases |sources|
  {
    if sources != [] {
      var n := |sources| - 1;
      BlocksKnown(sources[..n], pick, unknown);
      BlockKnows(RunBlocks(sources[..n], pick, unknown), AdvanceAll(sources[..n]), n, sources[n], KnownBlocks(sources[..n]), pick, unknown);
    }
  }

  /** Every execution of a command list on whose uses the analysis is honest is covered by its warnings. */
  lemma {:induction false} ReportCovered(sources: seq<Source>, pick: nat -> bool, unknown: nat -> seq<Event>)
    requires RightSources(sources)
    requires forall i, k :: 0 <= k < |unknown(i)| ==> !unknown(i)[k].Used?
    ensures Covered(AdvanceAll(sources).warnings, RunBlocks(sources, pick, unknown).trace)
    decreases |sources|
  {
    if sources != [] {
      var n := |sources| - 1;
      forall i | 0 <= i < n ensures RightAt(sources[..n], i) {
        assert sources[..n][..i] == sources[..i] && RightAt(sources, i);
      }
      assert RightAt(sources, n);
      ReportCovered(sources[..n], pick, unknown);
      BlocksKnown(sources[..n], pick, unknown);
      BlockCovered(RunBlocks(sources[..n], pick, unknown), AdvanceAll(sources[..n]), n, sources[n], KnownBlocks(sources[..n]), pick, unknown);
    }
  }
}
