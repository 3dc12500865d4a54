/**
  The other direction: the dependency analysis expects nothing that cannot happen. On scripts
  in which no call always leaves the shell, every outcome it expects is the outcome of some
  execution with curl exactly as claimed, and every warning has an execution that deserves it.
  */
module DependencyPrecision {
  import opened Wrappers
  import opened ShellSyntax
  import opened DependencyAnalysis
  import opened CommandMeaning
  import opened ShellExecution
  import opened ShellLocality
  import opened DependencyReference

  // ----- scripts that can go on -----

  /** No `exec` of a program and no `exit`: whatever else happens, the shell may go on. An `elif` is an `if` again. */
  predicate GoesOn(c: Cmd) {
    match c
    case Nothing => true
    case Call(args, _, assigns) => !MannerOf(args, assigns).leaves
    case Block(body) => GoesOnScript(body)
    case Subshell(body) => GoesOnScript(body)
    case And(x, y) => GoesOn(x.cmd) && GoesOn(y.cmd)
    case Or(x, y) => GoesOn(x.cmd) && GoesOn(y.cmd)
    case If(cond, body, otherwise) => GoesOnScript(cond) && GoesOnScript(body) && GoesOnElse(otherwise)
  }

  predicate GoesOnScript(s: Script) {
    s.Then? ==> GoesOn(s.first.cmd) && GoesOnScript(s.rest)
  }

  predicate GoesOnElse(e: Else) {
    match e
    case NoElse => true
    case Else(body) => GoesOnScript(body)
    case Elif(clause) => clause.If? && GoesOn(clause)
  }

  // ----- where the analysis expects nobody -----

  predicate Dead(flow: Flow) {
    !flow.success.reachable && !flow.failure.reachable
  }

  lemma {:induction false} ScriptDead(ctx: Context, s: Script, flow: Flow, ws: seq<Warning>)
    requires Dead(flow)
    ensures Dead(ScriptFlow(ctx, s, flow, ws).flow) && ScriptFlow(ctx, s, flow, ws).warnings == ws
    decreases s
  {
    if s.Then? {
      ScriptDead(ctx, s.rest, Flow(NOWHERE, NOWHERE), ws);
    }
  }

  lemma {:induction false} CmdDead(ctx: Context, c: Cmd, input: Facts, ws: seq<Warning>)
    requires !input.reachable
    ensures Dead(CmdFlow(ctx, c, input, ws).flow)
    ensures c.If? && GoesOn(c) ==> CmdFlow(ctx, c, input, ws).warnings == ws
    decreases c, 0
  {
    match c
    case Nothing =>
    case Call(args, end, assigns) =>
    case Block(body) => ScriptDead(ctx, body, Flow(input, NOWHERE), ws);
    case Subshell(body) => ScriptDead(ctx, body, Flow(input, NOWHERE), ws);
    case And(x, y) =>
    case Or(x, y) =>
    case If(cond, body, otherwise) =>
      var r := ScriptFlow(ctx, cond, Flow(input, NOWHERE), ws);
      ScriptDead(ctx, cond, Flow(input, NOWHERE), ws);
      ScriptDead(ctx, body, Flow(r.flow.success, NOWHERE), r.warnings);
      ElseDead(ctx, otherwise, r.flow.failure, ScriptFlow(ctx, body, Flow(r.flow.success, NOWHERE), r.warnings).warnings);
  }

  lemma {:induction false} ElseDead(ctx: Context, e: Else, input: Facts, ws: seq<Warning>)
    requires !input.reachable
    ensures Dead(ElseFlow(ctx, e, input, ws).flow)
    ensures GoesOnElse(e) ==> ElseFlow(ctx, e, input, ws).warnings == ws
    decreases e, 1
  {
    match e
    case NoElse =>
    case Else(body) => ScriptDead(ctx, body, Flow(input, NOWHERE), ws);
    case Elif(clause) => CmdDead(ctx, clause, input, ws);
  }

  // ----- what is expected can happen -----

  /** This execution ends as asked, with curl exactly as claimed. */
  predicate Attains(x: Exec, ok: bool, flow: Flow) {
    x.outcome == Ended(ok) && Present(x.trace) == Claimed(flow, ok).installed
  }

  /** An expected outcome that is no better than both together. */
  function Worst(flow: Flow): (ok: bool)
    requires !Dead(flow)
    ensures Claimed(flow, ok).reachable && Claimed(flow, ok).installed == Merge(flow.success, flow.failure).installed
  {
    flow.success.reachable && flow.success.installed == Merge(flow.success, flow.failure).installed
  }

  lemma CallAttains(site: Site, e: Effect, m: Manner, input: Facts, ws: seq<Warning>, ok: bool, d: Mode, tested: bool,
                    clock: nat, trace: seq<Event>) returns (pick: nat -> bool)
    requires !m.leaves && !m.failing && Present(trace) == input.installed && Claimed(CallFlow(site, e, input, ws).flow, ok).reachable
    ensures Attains(RunCall(site, e, m, d, tested, pick, clock, trace), ok, CallFlow(site, e, input, ws).flow)
  {
    pick := (n: nat) => n == clock + 1 && ok;
    assert CallResult(e, m, ok) == ok;
    EventsPresent(site, e, input, ws, ok, trace);
  }

  lemma EventsPresent(site: Site, e: Effect, input: Facts, ws: seq<Warning>, ok: bool, trace: seq<Event>)
    requires Present(trace) == input.installed && Claimed(CallFlow(site, e, input, ws).flow, ok).reachable
    ensures Present(trace + CallEvents(site, e, ok)) == Claimed(CallFlow(site, e, input, ws).flow, ok).installed
  {
    var es := CallEvents(site, e, ok);
    if es == [] {
      assert trace + es == trace;
    } else {
      assert trace + es == trace + [es[0]];
      FactsSnoc(input, trace, es[0]);
    }
  }

  lemma {:induction false} StmtAttains(ctx: Context, s: Stmt, input: Facts, ws: seq<Warning>, ok: bool, d: Mode, tested: bool,
                                       clock: nat, trace: seq<Event>) returns (pick: nat -> bool)
    requires GoesOn(s.cmd) && Present(trace) == input.installed && Claimed(StmtFlow(ctx, s, input, ws).flow, ok).reachable
    ensures Attains(RunStmt(ctx, s, d, tested, pick, clock, trace), ok, StmtFlow(ctx, s, input, ws).flow)
    decreases s, 0
  {
    var inner := if s.negated then !ok else ok;
    var p := CmdAttains(ctx, s.cmd, input, ws, inner, d, tested || s.negated, clock + 5, trace);
    pick := Splice((n: nat) => false, p, clock + 5);
    CmdLocal(ctx, s.cmd, d, tested || s.negated, p, pick, clock + 5, trace);
  }

  lemma {:induction false} ScriptAttains(ctx: Context, s: Script, last: bool, flow: Flow, ws: seq<Warning>, ok: bool, d: Mode, tested: bool,
                                         clock: nat, trace: seq<Event>) returns (pick: nat -> bool)
    requires GoesOnScript(s) && Claimed(ScriptFlow(ctx, s, flow, ws).flow, ok).reachable
    requires if s.End? then last == ok && Present(trace) == Claimed(flow, ok).installed
             else Present(trace) == Merge(flow.success, flow.failure).installed
    ensures Attains(RunScript(ctx, s, last, d, tested, pick, clock, trace), ok, ScriptFlow(ctx, s, flow, ws).flow)
    decreases s, 0
  {
    match s
    case End => pick := (n: nat) => false;
    case Then(first, rest) =>
      var input := Merge(flow.success, flow.failure);
      var r := StmtFlow(ctx, first, input, ws);
      if Dead(r.flow) {
        ScriptDead(ctx, rest, r.flow, r.warnings);
        assert false;
      }
      var mid := if rest.End? then ok else Worst(r.flow);
      var p := StmtAttains(ctx, first, input, ws, mid, d, tested, clock, trace);
      var x := RunStmt(ctx, first, d, tested, p, clock, trace);
      var q := ScriptAttains(ctx, rest, mid, r.flow, r.warnings, ok, x.mode, tested, x.clock, x.trace);
      pick := Splice(p, q, x.clock);
      StmtLocal(ctx, first, d, tested, p, pick, clock, trace);
      ScriptLocal(ctx, rest, mid, x.mode, tested, q, pick, x.clock, x.trace);
  }

  lemma {:induction false} CmdAttains(ctx: Context, c: Cmd, input: Facts, ws: seq<Warning>, ok: bool, d: Mode, tested: bool,
                                      clock: nat, trace: seq<Event>) returns (pick: nat -> bool)
    requires GoesOn(c) && Present(trace) == input.installed && Claimed(CmdFlow(ctx, c, input, ws).flow, ok).reachable
    ensures Attains(RunCmd(ctx, c, d, tested, pick, clock, trace), ok, CmdFlow(ctx, c, input, ws).flow)
    decreases c, 1
  {
    match c
    case Nothing => pick := (n: nat) => false;
    case Call(args, end, assigns) =>
      EffectIsDeed(args);
      pick := CallAttains(Site(ctx.command, end, ctx.source), EffectOf(args), MannerOf(args, assigns), input, ws, ok, d, tested, clock, trace);
    case Block(body) => pick := BodyAttains(ctx, body, input, ws, ok, d, tested, clock, trace);
    case Subshell(body) => pick := SubshellAttains(ctx, body, input, ws, ok, d, tested, clock, trace);
    case And(x, y) => pick := AndAttains(ctx, c, input, ws, ok, d, tested, clock, trace);
    case Or(x, y) => pick := OrAttains(ctx, c, input, ws, ok, d, tested, clock, trace);
    case If(cond, body, otherwise) => pick := IfAttains(ctx, c, input, ws, ok, d, tested, clock, trace);
  }

  lemma BodyAttains(ctx: Context, body: Script, input: Facts, ws: seq<Warning>, ok: bool, d: Mode, tested: bool,
                    clock: nat, trace: seq<Event>) returns (pick: nat -> bool)
    requires GoesOnScript(body) && Present(trace) == input.installed
    requires Claimed(ScriptFlow(ctx, body, Flow(input, NOWHERE), ws).flow, ok).reachable
    ensures Attains(RunScript(ctx, body, true, d, tested, pick, clock, trace), ok, ScriptFlow(ctx, body, Flow(input, NOWHERE), ws).flow)
    decreases body, 1
  {
    if !input.reachable {
      ScriptDead(ctx, body, Flow(input, NOWHERE), ws);
      assert false;
    }
    pick := ScriptAttains(ctx, body, true, Flow(input, NOWHERE), ws, ok, d, tested, clock, trace);
  }

  lemma SubshellAttains(ctx: Context, body: Script, input: Facts, ws: seq<Warning>, ok: bool, d: Mode, tested: bool,
                        clock: nat, trace: seq<Event>) returns (pick: nat -> bool)
    requires GoesOnScript(body) && Present(trace) == input.installed
    requires Claimed(ScriptFlow(ctx, body, Flow(input, NOWHERE), ws).flow, ok).reachable
    ensures Attains(RunCmd(ctx, Subshell(body), d, tested, pick, clock, trace), ok, ScriptFlow(ctx, body, Flow(input, NOWHERE), ws).flow)
    decreases body, 2
  {
    var p := BodyAttains(ctx, body, input, ws, ok, d.(trapped := false), tested, clock, trace);
    var x := RunScript(ctx, body, true, d.(trapped := false), tested, p, clock, trace);
    pick := Splice(p, (n: nat) => n == x.clock && ok, x.clock);
    ScriptLocal(ctx, body, true, d.(trapped := false), tested, p, pick, clock, trace);
  }

  lemma AndAttains(ctx: Context, c: Cmd, input: Facts, ws: seq<Warning>, ok: bool, d: Mode, tested: bool,
                   clock: nat, trace: seq<Event>) returns (pick: nat -> bool)
    requires c.And? && GoesOn(c) && Present(trace) == input.installed && Claimed(CmdFlow(ctx, c, input, ws).flow, ok).reachable
    ensures Attains(RunCmd(ctx, c, d, tested, pick, clock, trace), ok, CmdFlow(ctx, c, input, ws).flow)
    decreases c, 0
  {
    var r := StmtFlow(ctx, c.x, input, ws);
    var q := StmtFlow(ctx, c.y, r.flow.success, r.warnings);
    if !ok && r.flow.failure.reachable && r.flow.failure.installed == Merge(r.flow.failure, q.flow.failure).installed {
      pick := StmtAttains(ctx, c.x, input, ws, false, d, true, clock, trace);
    } else {
      var p := StmtAttains(ctx, c.x, input, ws, true, d, true, clock, trace);
      var x := RunStmt(ctx, c.x, d, true, p, clock, trace);
      var next := StmtAttains(ctx, c.y, r.flow.success, r.warnings, ok, x.mode, tested, x.clock, x.trace);
      pick := Splice(p, next, x.clock);
      StmtLocal(ctx, c.x, d, true, p, pick, clock, trace);
      StmtLocal(ctx, c.y, x.mode, tested, next, pick, x.clock, x.trace);
    }
  }

  lemma OrAttains(ctx: Context, c: Cmd, input: Facts, ws: seq<Warning>, ok: bool, d: Mode, tested: bool,
                  clock: nat, trace: seq<Event>) returns (pick: nat -> bool)
    requires c.Or? && GoesOn(c) && Present(trace) == input.installed && Claimed(CmdFlow(ctx, c, input, ws).flow, ok).reachable
    ensures Attains(RunCmd(ctx, c, d, tested, pick, clock, trace), ok, CmdFlow(ctx, c, input, ws).flow)
    decreases c, 0
  {
    var r := StmtFlow(ctx, c.x, input, ws);
    var q := StmtFlow(ctx, c.y, r.flow.failure, r.warnings);
    if ok && r.flow.success.reachable && r.flow.success.installed == Merge(r.flow.success, q.flow.success).installed {
      pick := StmtAttains(ctx, c.x, input, ws, true, d, true, clock, trace);
    } else {
      var p := StmtAttains(ctx, c.x, input, ws, false, d, true, clock, trace);
      var x := RunStmt(ctx, c.x, d, true, p, clock, trace);
      var next := StmtAttains(ctx, c.y, r.flow.failure, r.warnings, ok, x.mode, tested, x.clock, x.trace);
      pick := Splice(p, next, x.clock);
      StmtLocal(ctx, c.x, d, true, p, pick, clock, trace);
      StmtLocal(ctx, c.y, x.mode, tested, next, pick, x.clock, x.trace);
    }
  }

  lemma IfAttains(ctx: Context, c: Cmd, input: Facts, ws: seq<Warning>, ok: bool, d: Mode, tested: bool,
                  clock: nat, trace: seq<Event>) returns (pick: nat -> bool)
    requires c.If? && GoesOn(c) && Present(trace) == input.installed && Claimed(CmdFlow(ctx, c, input, ws).flow, ok).reachable
    ensures Attains(RunCmd(ctx, c, d, tested, pick, clock, trace), ok, CmdFlow(ctx, c, input, ws).flow)
    decreases c, 0
  {
    var r := ScriptFlow(ctx, c.cond, Flow(input, NOWHERE), ws);
    var q := ScriptFlow(ctx, c.body, Flow(r.flow.success, NOWHERE), r.warnings);
    var e := ElseFlow(ctx, c.otherwise, r.flow.failure, q.warnings);
    var here, there := Claimed(q.flow, ok), Claimed(e.flow, ok);
    var taken := here.reachable && here.installed == Merge(here, there).installed;
    BranchAlive(ctx, c, input, ws, ok, taken);
    var p := BodyAttains(ctx, c.cond, input, ws, taken, d, true, clock, trace);
    var x := RunScript(ctx, c.cond, true, d, true, p, clock, trace);
    var next: nat -> bool;
    if taken {
      next := BodyAttains(ctx, c.body, r.flow.success, r.warnings, ok, x.mode, tested, x.clock, x.trace);
      pick := Splice(p, next, x.clock);
      ScriptLocal(ctx, c.body, true, x.mode, tested, next, pick, x.clock, x.trace);
    } else {
      next := ElseAttains(ctx, c.otherwise, r.flow.failure, q.warnings, ok, x.mode, tested, x.clock, x.trace);
      pick := Splice(p, next, x.clock);
      ElseLocal(ctx, c.otherwise, x.mode, tested, next, pick, x.clock, x.trace);
    }
    ScriptLocal(ctx, c.cond, true, d, true, p, pick, clock, trace);
  }

  /** A branch with an expected outcome is entered on an expected outcome of the condition. */
  lemma BranchAlive(ctx: Context, c: Cmd, input: Facts, ws: seq<Warning>, ok: bool, taken: bool)
    requires c.If?
    requires var r := ScriptFlow(ctx, c.cond, Flow(input, NOWHERE), ws);
             var q := ScriptFlow(ctx, c.body, Flow(r.flow.success, NOWHERE), r.warnings);
             Claimed(if taken then q.flow else ElseFlow(ctx, c.otherwise, r.flow.failure, q.warnings).flow, ok).reachable
    ensures Claimed(ScriptFlow(ctx, c.cond, Flow(input, NOWHERE), ws).flow, taken).reachable
  {
    var r := ScriptFlow(ctx, c.cond, Flow(input, NOWHERE), ws);
    if !Claimed(r.flow, taken).reachable {
      if taken {
        ScriptDead(ctx, c.body, Flow(r.flow.success, NOWHERE), r.warnings);
      } else {
        ElseDead(ctx, c.otherwise, r.flow.failure, ScriptFlow(ctx, c.body, Flow(r.flow.success, NOWHERE), r.warnings).warnings);
      }
    }
  }

  lemma {:induction false} ElseAttains(ctx: Context, e: Else, input: Facts, ws: seq<Warning>, ok: bool, d: Mode, tested: bool,
                                       clock: nat, trace: seq<Event>) returns (pick: nat -> bool)
    requires GoesOnElse(e) && Present(trace) == input.installed && Claimed(ElseFlow(ctx, e, input, ws).flow, ok).reachable
    ensures Attains(RunElse(ctx, e, d, tested, pick, clock, trace), ok, ElseFlow(ctx, e, input, ws).flow)
    decreases e, 0
  {
    match e
    case NoElse => pick := (n: nat) => false;
    case Else(body) => pick := BodyAttains(ctx, body, input, ws, ok, d, tested, clock, trace);
    case Elif(clause) => pick := CmdAttains(ctx, clause, input, ws, ok, d, tested, clock, trace);
  }

  // ----- what is warned about can happen -----

  /** A use of curl by this block, not before `from`, without a literal install in force. */
  ghost predicate Bare(trace: seq<Event>, from: nat, command: nat) {
    exists i :: from <= i < |trace| && trace[i] == Used(command) && !Present(trace[..i])
  }

  lemma BareStays(trace: seq<Event>, more: seq<Event>, from: nat, lower: nat, command: nat)
    requires Bare(trace, from, command) && trace <= more && lower <= from
    ensures Bare(more, lower, command)
  {
    var i :| from <= i < |trace| && trace[i] == Used(command) && !Present(trace[..i]);
    assert more[..i] == trace[..i] && more[i] == trace[i];
  }

  lemma CallWarns(site: Site, e: Effect, m: Manner, input: Facts, ws: seq<Warning>, d: Mode, tested: bool,
                  clock: nat, trace: seq<Event>) returns (pick: nat -> bool)
    requires Present(trace) == input.installed && CallFlow(site, e, input, ws).warnings != ws
    ensures Bare(RunCall(site, e, m, d, tested, pick, clock, trace).trace, |trace|, site.command)
  {
    pick := (n: nat) => false;
    var more := trace + [Used(site.command)];
    assert more[|trace|] == Used(site.command) && more[..|trace|] == trace;
  }

  lemma {:induction false} StmtWarns(ctx: Context, s: Stmt, input: Facts, ws: seq<Warning>, d: Mode, tested: bool,
                                     clock: nat, trace: seq<Event>) returns (pick: nat -> bool)
    requires GoesOn(s.cmd) && Present(trace) == input.installed && StmtFlow(ctx, s, input, ws).warnings != ws
    ensures Bare(RunStmt(ctx, s, d, tested, pick, clock, trace).trace, |trace|, ctx.command)
    decreases s, 0
  {
    var p := CmdWarns(ctx, s.cmd, input, ws, d, tested || s.negated, clock + 5, trace);
    pick := Splice((n: nat) => false, p, clock + 5);
    CmdLocal(ctx, s.cmd, d, tested || s.negated, p, pick, clock + 5, trace);
  }

  lemma {:induction false} ScriptWarns(ctx: Context, s: Script, last: bool, flow: Flow, ws: seq<Warning>, d: Mode, tested: bool,
                                       clock: nat, trace: seq<Event>) returns (pick: nat -> bool)
    requires GoesOnScript(s) && Present(trace) == Merge(flow.success, flow.failure).installed
    requires ScriptFlow(ctx, s, flow, ws).warnings != ws
    ensures Bare(RunScript(ctx, s, last, d, tested, pick, clock, trace).trace, |trace|, ctx.command)
    decreases s, 0
  {
    var input := Merge(flow.success, flow.failure);
    var r := StmtFlow(ctx, s.first, input, ws);
    if r.warnings != ws {
      pick := StmtWarns(ctx, s.first, input, ws, d, tested, clock, trace);
      var x := RunStmt(ctx, s.first, d, tested, pick, clock, trace);
      ScriptLater(ctx, s.rest, x.outcome.ok, x.mode, tested, pick, x.clock, x.trace);
      BareStays(x.trace, RunScript(ctx, s, last, d, tested, pick, clock, trace).trace, |trace|, |trace|, ctx.command);
    } else {
      if Dead(r.flow) {
        ScriptDead(ctx, s.rest, r.flow, r.warnings);
        assert false;
      }
      var mid := Worst(r.flow);
      var p := StmtAttains(ctx, s.first, input, ws, mid, d, tested, clock, trace);
      var x := RunStmt(ctx, s.first, d, tested, p, clock, trace);
      StmtLater(ctx, s.first, d, tested, p, clock, trace);
      var q := ScriptWarns(ctx, s.rest, mid, r.flow, r.warnings, x.mode, tested, x.clock, x.trace);
      pick := Splice(p, q, x.clock);
      StmtLocal(ctx, s.first, d, tested, p, pick, clock, trace);
      ScriptLocal(ctx, s.rest, mid, x.mode, tested, q, pick, x.clock, x.trace);
      var y := RunScript(ctx, s.rest, mid, x.mode, tested, q, x.clock, x.trace);
      BareStays(y.trace, y.trace, |x.trace|, |trace|, ctx.command);
    }
  }

  lemma {:induction false} CmdWarns(ctx: Context, c: Cmd, input: Facts, ws: seq<Warning>, d: Mode, tested: bool,
                                    clock: nat, trace: seq<Event>) returns (pick: nat -> bool)
    requires GoesOn(c) && Present(trace) == input.installed && CmdFlow(ctx, c, input, ws).warnings != ws
    ensures Bare(RunCmd(ctx, c, d, tested, pick, clock, trace).trace, |trace|, ctx.command)
    decreases c, 1
  {
    match c
    case Call(args, end, assigns) =>
      EffectIsDeed(args);
      pick := CallWarns(Site(ctx.command, end, ctx.source), EffectOf(args), MannerOf(args, assigns), input, ws, d, tested, clock, trace);
    case Block(body) => pick := BodyWarns(ctx, body, input, ws, d, tested, clock, trace);
    case Subshell(body) => pick := BodyWarns(ctx, body, input, ws, d.(trapped := false), tested, clock, trace);
    case And(x, y) => pick := AndWarns(ctx, c, input, ws, d, tested, clock, trace);
    case Or(x, y) => pick := OrWarns(ctx, c, input, ws, d, tested, clock, trace);
    case If(cond, body, otherwise) => pick := IfWarns(ctx, c, input, ws, d, tested, clock, trace);
  }

  lemma BodyWarns(ctx: Context, body: Script, input: Facts, ws: seq<Warning>, d: Mode, tested: bool,
                  clock: nat, trace: seq<Event>) returns (pick: nat -> bool)
    requires GoesOnScript(body) && Present(trace) == input.installed && ScriptFlow(ctx, body, Flow(input, NOWHERE), ws).warnings != ws
    ensures Bare(RunScript(ctx, body, true, d, tested, pick, clock, trace).trace, |trace|, ctx.command)
    decreases body, 1
  {
    if !input.reachable {
      ScriptDead(ctx, body, Flow(input, NOWHERE), ws);
      assert false;
    }
    pick := ScriptWarns(ctx, body, true, Flow(input, NOWHERE), ws, d, tested, clock, trace);
  }

  /** The second command runs behind the first, and its use stays in the trace. */
  lemma SecondWarns(ctx: Context, first: Stmt, second: Stmt, ok: bool, d: Mode, tested: bool, p: nat -> bool, q: nat -> bool,
                    clock: nat, trace: seq<Event>) returns (pick: nat -> bool)
    requires var x := RunStmt(ctx, first, d, true, p, clock, trace);
             x.outcome == Ended(ok) && Bare(RunStmt(ctx, second, x.mode, tested, q, x.clock, x.trace).trace, |x.trace|, ctx.command)
    ensures var x := RunStmt(ctx, first, d, true, pick, clock, trace);
            x.outcome == Ended(ok) && Bare(RunStmt(ctx, second, x.mode, tested, pick, x.clock, x.trace).trace, |trace|, ctx.command)
  {
    var x := RunStmt(ctx, first, d, true, p, clock, trace);
    var y := RunStmt(ctx, second, x.mode, tested, q, x.clock, x.trace);
    StmtLater(ctx, first, d, true, p, clock, trace);
    pick := Splice(p, q, x.clock);
    StmtLocal(ctx, first, d, true, p, pick, clock, trace);
    StmtLocal(ctx, second, x.mode, tested, q, pick, x.clock, x.trace);
    BareStays(y.trace, y.trace, |x.trace|, |trace|, ctx.command);
  }

  lemma AndWarns(ctx: Context, c: Cmd, input: Facts, ws: seq<Warning>, d: Mode, tested: bool,
                 clock: nat, trace: seq<Event>) returns (pick: nat -> bool)
    requires c.And? && GoesOn(c) && Present(trace) == input.installed && CmdFlow(ctx, c, input, ws).warnings != ws
    ensures Bare(RunCmd(ctx, c, d, tested, pick, clock, trace).trace, |trace|, ctx.command)
    decreases c, 0
  {
    var r := StmtFlow(ctx, c.x, input, ws);
    if r.warnings != ws {
      pick := StmtWarns(ctx, c.x, input, ws, d, true, clock, trace);
      var x := RunStmt(ctx, c.x, d, true, pick, clock, trace);
      StmtLater(ctx, c.y, x.mode, tested, pick, x.clock, x.trace);
      BareStays(x.trace, RunCmd(ctx, c, d, tested, pick, clock, trace).trace, |trace|, |trace|, ctx.command);
    } else {
      var p := StmtAttains(ctx, c.x, input, ws, true, d, true, clock, trace);
      var x := RunStmt(ctx, c.x, d, true, p, clock, trace);
      var q := StmtWarns(ctx, c.y, r.flow.success, r.warnings, x.mode, tested, x.clock, x.trace);
      pick := SecondWarns(ctx, c.x, c.y, true, d, tested, p, q, clock, trace);
    }
  }

  lemma OrWarns(ctx: Context, c: Cmd, input: Facts, ws: seq<Warning>, d: Mode, tested: bool,
                clock: nat, trace: seq<Event>) returns (pick: nat -> bool)
    requires c.Or? && GoesOn(c) && Present(trace) == input.installed && CmdFlow(ctx, c, input, ws).warnings != ws
    ensures Bare(RunCmd(ctx, c, d, tested, pick, clock, trace).trace, |trace|, ctx.command)
    decreases c, 0
  {
    var r := StmtFlow(ctx, c.x, input, ws);
    if r.warnings != ws {
      pick := StmtWarns(ctx, c.x, input, ws, d, true, clock, trace);
      var x := RunStmt(ctx, c.x, d, true, pick, clock, trace);
      StmtLater(ctx, c.y, x.mode, tested, pick, x.clock, x.trace);
      BareStays(x.trace, RunCmd(ctx, c, d, tested, pick, clock, trace).trace, |trace|, |trace|, ctx.command);
    } else {
      var p := StmtAttains(ctx, c.x, input, ws, false, d, true, clock, trace);
      var x := RunStmt(ctx, c.x, d, true, p, clock, trace);
      var q := StmtWarns(ctx, c.y, r.flow.failure, r.warnings, x.mode, tested, x.clock, x.trace);
      pick := SecondWarns(ctx, c.x, c.y, false, d, tested, p, q, clock, trace);
    }
  }

  lemma IfWarns(ctx: Context, c: Cmd, input: Facts, ws: seq<Warning>, d: Mode, tested: bool,
                clock: nat, trace: seq<Event>) returns (pick: nat -> bool)
    requires c.If? && GoesOn(c) && Present(trace) == input.installed && CmdFlow(ctx, c, input, ws).warnings != ws
    ensures Bare(RunCmd(ctx, c, d, tested, pick, clock, trace).trace, |trace|, ctx.command)
    decreases c, 0
  {
    var r := ScriptFlow(ctx, c.cond, Flow(input, NOWHERE), ws);
    if r.warnings != ws {
      pick := BodyWarns(ctx, c.cond, input, ws, d, true, clock, trace);
      var x := RunScript(ctx, c.cond, true, d, true, pick, clock, trace);
      ScriptLater(ctx, c.body, true, x.mode, tested, pick, x.clock, x.trace);
      ElseLater(ctx, c.otherwise, x.mode, tested, pick, x.clock, x.trace);
      BareStays(x.trace, RunCmd(ctx, c, d, tested, pick, clock, trace).trace, |trace|, |trace|, ctx.command);
    } else {
      pick := BranchWarns(ctx, c, input, ws, d, tested, clock, trace);
    }
  }

  lemma BranchWarns(ctx: Context, c: Cmd, input: Facts, ws: seq<Warning>, d: Mode, tested: bool,
                    clock: nat, trace: seq<Event>) returns (pick: nat -> bool)
    requires c.If? && GoesOn(c) && Present(trace) == input.installed && CmdFlow(ctx, c, input, ws).warnings != ws
    requires ScriptFlow(ctx, c.cond, Flow(input, NOWHERE), ws).warnings == ws
    ensures Bare(RunCmd(ctx, c, d, tested, pick, clock, trace).trace, |trace|, ctx.command)
    decreases c, 0, 0
  {
    var r := ScriptFlow(ctx, c.cond, Flow(input, NOWHERE), ws);
    var q := ScriptFlow(ctx, c.body, Flow(r.flow.success, NOWHERE), r.warnings);
    var taken := q.warnings != ws;
    if !Claimed(r.flow, taken).reachable {
      if taken {
        ScriptDead(ctx, c.body, Flow(r.flow.success, NOWHERE), r.warnings);
      } else {
        ElseDead(ctx, c.otherwise, r.flow.failure, q.warnings);
      }
      assert false;
    }
    var p := BodyAttains(ctx, c.cond, input, ws, taken, d, true, clock, trace);
    var x := RunScript(ctx, c.cond, true, d, true, p, clock, trace);
    ScriptLater(ctx, c.cond, true, d, true, p, clock, trace);
    var next: nat -> bool;
    if taken {
      next := BodyWarns(ctx, c.body, r.flow.success, r.warnings, x.mode, tested, x.clock, x.trace);
      pick := Splice(p, next, x.clock);
      ScriptLocal(ctx, c.body, true, x.mode, tested, next, pick, x.clock, x.trace);
    } else {
      next := ElseWarns(ctx, c.otherwise, r.flow.failure, q.warnings, x.mode, tested, x.clock, x.trace);
      pick := Splice(p, next, x.clock);
      ElseLocal(ctx, c.otherwise, x.mode, tested, next, pick, x.clock, x.trace);
    }
    ScriptLocal(ctx, c.cond, true, d, true, p, pick, clock, trace);
    var end := RunCmd(ctx, c, d, tested, pick, clock, trace);
    BareStays(end.trace, end.trace, |x.trace|, |trace|, ctx.command);
  }

  lemma {:induction false} ElseWarns(ctx: Context, e: Else, input: Facts, ws: seq<Warning>, d: Mode, tested: bool,
                                     clock: nat, trace: seq<Event>) returns (pick: nat -> bool)
    requires GoesOnElse(e) && Present(trace) == input.installed && ElseFlow(ctx, e, input, ws).warnings != ws
    ensures Bare(RunElse(ctx, e, d, tested, pick, clock, trace).trace, |trace|, ctx.command)
    decreases e, 0
  {
    match e
    case Else(body) => pick := BodyWarns(ctx, body, input, ws, d, tested, clock, trace);
    case Elif(clause) => pick := CmdWarns(ctx, clause, input, ws, d, tested, clock, trace);
  }
}
