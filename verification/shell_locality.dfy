/** An execution looks only at its own part of the oracle, so two executions can be joined. */
module ShellLocality {
  import opened ShellSyntax
  import opened DependencyAnalysis
  import opened ShellExecution

  ghost predicate Same(p: nat -> bool, q: nat -> bool, from: nat, to: nat) {
    forall n :: from <= n < to ==> p(n) == q(n)
  }

  function Splice(p: nat -> bool, q: nat -> bool, at: nat): (r: nat -> bool) {
    (n: nat) => if n < at then p(n) else q(n)
  }

  /** Time passes, and nothing that happened is undone. */
  predicate Later(x: Exec, clock: nat, trace: seq<Event>) {
    x.clock >= clock && trace <= x.trace
  }

  lemma LaterTrans(x: Exec, y: Exec, clock: nat, trace: seq<Event>)
    requires Later(x, clock, trace) && Later(y, x.clock, x.trace)
    ensures Later(y, clock, trace)
  {
  }

  lemma {:induction false} StmtLater(ctx: Context, s: Stmt, d: Mode, tested: bool, pick: nat -> bool, clock: nat, trace: seq<Event>)
    ensures Later(RunStmt(ctx, s, d, tested, pick, clock, trace), clock, trace)
    decreases s, 0
  {
    CmdLater(ctx, s.cmd, d, tested || s.negated, pick, clock + 5, trace);
  }

  lemma {:induction false} ScriptLater(ctx: Context, s: Script, last: bool, d: Mode, tested: bool, pick: nat -> bool, clock: nat,
                                       trace: seq<Event>)
    ensures Later(RunScript(ctx, s, last, d, tested, pick, clock, trace), clock, trace)
    decreases s, 0
  {
    if s.Then? {
      var x := RunStmt(ctx, s.first, d, tested, pick, clock, trace);
      StmtLater(ctx, s.first, d, tested, pick, clock, trace);
      if x.outcome.Ended? {
        ScriptLater(ctx, s.rest, x.outcome.ok, x.mode, tested, pick, x.clock, x.trace);
        LaterTrans(x, RunScript(ctx, s.rest, x.outcome.ok, x.mode, tested, pick, x.clock, x.trace), clock, trace);
      }
    }
  }

  lemma {:induction false} CmdLater(ctx: Context, c: Cmd, d: Mode, tested: bool, pick: nat -> bool, clock: nat, trace: seq<Event>)
    ensures Later(RunCmd(ctx, c, d, tested, pick, clock, trace), clock, trace)
    decreases c, 1
  {
    match c
    case Nothing =>
    case Call(args, end, assigns) =>
    case Block(body) => ScriptLater(ctx, body, true, d, tested, pick, clock, trace);
    case Subshell(body) => ScriptLater(ctx, body, true, d.(trapped := false), tested, pick, clock, trace);
    case And(a, b) =>
      var x := RunStmt(ctx, a, d, true, pick, clock, trace);
      StmtLater(ctx, a, d, true, pick, clock, trace);
      StmtLater(ctx, b, x.mode, tested, pick, x.clock, x.trace);
      LaterTrans(x, RunStmt(ctx, b, x.mode, tested, pick, x.clock, x.trace), clock, trace);
    case Or(a, b) =>
      var x := RunStmt(ctx, a, d, true, pick, clock, trace);
      StmtLater(ctx, a, d, true, pick, clock, trace);
      StmtLater(ctx, b, x.mode, tested, pick, x.clock, x.trace);
      LaterTrans(x, RunStmt(ctx, b, x.mode, tested, pick, x.clock, x.trace), clock, trace);
    case If(cond, body, otherwise) =>
      var x := RunScript(ctx, cond, true, d, true, pick, clock, trace);
      ScriptLater(ctx, cond, true, d, true, pick, clock, trace);
      ScriptLater(ctx, body, true, x.mode, tested, pick, x.clock, x.trace);
      ElseLater(ctx, otherwise, x.mode, tested, pick, x.clock, x.trace);
      LaterTrans(x, RunScript(ctx, body, true, x.mode, tested, pick, x.clock, x.trace), clock, trace);
      LaterTrans(x, RunElse(ctx, otherwise, x.mode, tested, pick, x.clock, x.trace), clock, trace);
  }

  lemma {:induction false} ElseLater(ctx: Context, e: Else, d: Mode, tested: bool, pick: nat -> bool, clock: nat, trace: seq<Event>)
    ensures Later(RunElse(ctx, e, d, tested, pick, clock, trace), clock, trace)
    decreases e, 0
  {
    match e
    case NoElse =>
    case Else(body) => ScriptLater(ctx, body, true, d, tested, pick, clock, trace);
    case Elif(clause) => CmdLater(ctx, clause, d, tested, pick, clock, trace);
  }

  lemma {:induction false} StmtLocal(ctx: Context, s: Stmt, d: Mode, tested: bool, p: nat -> bool, q: nat -> bool, clock: nat, trace: seq<Event>)
    requires Same(p, q, clock, RunStmt(ctx, s, d, tested, p, clock, trace).clock)
    ensures RunStmt(ctx, s, d, tested, q, clock, trace) == RunStmt(ctx, s, d, tested, p, clock, trace)
    decreases s, 0
  {
    if !Trapped(d, p, clock) && !Refused(s, p, clock) {
      CmdLater(ctx, s.cmd, d, tested || s.negated, p, clock + 5, trace);
      CmdLocal(ctx, s.cmd, d, tested || s.negated, p, q, clock + 5, trace);
    }
  }

  lemma {:induction false} ScriptLocal(ctx: Context, s: Script, last: bool, d: Mode, tested: bool, p: nat -> bool, q: nat -> bool, clock: nat,
                                       trace: seq<Event>)
    requires Same(p, q, clock, RunScript(ctx, s, last, d, tested, p, clock, trace).clock)
    ensures RunScript(ctx, s, last, d, tested, q, clock, trace) == RunScript(ctx, s, last, d, tested, p, clock, trace)
    decreases s, 0
  {
    if s.Then? {
      var x := RunStmt(ctx, s.first, d, tested, p, clock, trace);
      StmtLater(ctx, s.first, d, tested, p, clock, trace);
      if x.outcome.Ended? {
        ScriptLater(ctx, s.rest, x.outcome.ok, x.mode, tested, p, x.clock, x.trace);
        ScriptLocal(ctx, s.rest, x.outcome.ok, x.mode, tested, p, q, x.clock, x.trace);
      }
      StmtLocal(ctx, s.first, d, tested, p, q, clock, trace);
    }
  }

  lemma {:induction false} CmdLocal(ctx: Context, c: Cmd, d: Mode, tested: bool, p: nat -> bool, q: nat -> bool, clock: nat, trace: seq<Event>)
    requires Same(p, q, clock, RunCmd(ctx, c, d, tested, p, clock, trace).clock)
    ensures RunCmd(ctx, c, d, tested, q, clock, trace) == RunCmd(ctx, c, d, tested, p, clock, trace)
    decreases c, 1
  {
    match c
    case Nothing =>
    case Call(args, end, assigns) =>
    case Block(body) => ScriptLocal(ctx, body, true, d, tested, p, q, clock, trace);
    case Subshell(body) =>
      ScriptLater(ctx, body, true, d.(trapped := false), tested, p, clock, trace);
      ScriptLocal(ctx, body, true, d.(trapped := false), tested, p, q, clock, trace);
    case And(a, b) => AndLocal(ctx, c, d, tested, p, q, clock, trace);
    case Or(a, b) => OrLocal(ctx, c, d, tested, p, q, clock, trace);
    case If(cond, body, otherwise) => IfLocal(ctx, c, d, tested, p, q, clock, trace);
  }

  lemma AndLocal(ctx: Context, c: Cmd, d: Mode, tested: bool, p: nat -> bool, q: nat -> bool, clock: nat, trace: seq<Event>)
    requires c.And? && Same(p, q, clock, RunCmd(ctx, c, d, tested, p, clock, trace).clock)
    ensures RunCmd(ctx, c, d, tested, q, clock, trace) == RunCmd(ctx, c, d, tested, p, clock, trace)
    decreases c, 0
  {
    var x := RunStmt(ctx, c.x, d, true, p, clock, trace);
    StmtLater(ctx, c.x, d, true, p, clock, trace);
    if x.outcome == Ended(true) {
      StmtLater(ctx, c.y, x.mode, tested, p, x.clock, x.trace);
      StmtLocal(ctx, c.y, x.mode, tested, p, q, x.clock, x.trace);
    }
    StmtLocal(ctx, c.x, d, true, p, q, clock, trace);
  }

  lemma OrLocal(ctx: Context, c: Cmd, d: Mode, tested: bool, p: nat -> bool, q: nat -> bool, clock: nat, trace: seq<Event>)
    requires c.Or? && Same(p, q, clock, RunCmd(ctx, c, d, tested, p, clock, trace).clock)
    ensures RunCmd(ctx, c, d, tested, q, clock, trace) == RunCmd(ctx, c, d, tested, p, clock, trace)
    decreases c, 0
  {
    var x := RunStmt(ctx, c.x, d, true, p, clock, trace);
    StmtLater(ctx, c.x, d, true, p, clock, trace);
    if x.outcome == Ended(false) {
      StmtLater(ctx, c.y, x.mode, tested, p, x.clock, x.trace);
      StmtLocal(ctx, c.y, x.mode, tested, p, q, x.clock, x.trace);
    }
    StmtLocal(ctx, c.x, d, true, p, q, clock, trace);
  }

  lemma IfLocal(ctx: Context, c: Cmd, d: Mode, tested: bool, p: nat -> bool, q: nat -> bool, clock: nat, trace: seq<Event>)
    requires c.If? && Same(p, q, clock, RunCmd(ctx, c, d, tested, p, clock, trace).clock)
    ensures RunCmd(ctx, c, d, tested, q, clock, trace) == RunCmd(ctx, c, d, tested, p, clock, trace)
    decreases c, 0
  {
    var x := RunScript(ctx, c.cond, true, d, true, p, clock, trace);
    ScriptLater(ctx, c.cond, true, d, true, p, clock, trace);
    if x.outcome == Ended(true) {
      ScriptLater(ctx, c.body, true, x.mode, tested, p, x.clock, x.trace);
      ScriptLocal(ctx, c.body, true, x.mode, tested, p, q, x.clock, x.trace);
    } else if x.outcome == Ended(false) {
      ElseLater(ctx, c.otherwise, x.mode, tested, p, x.clock, x.trace);
      ElseLocal(ctx, c.otherwise, x.mode, tested, p, q, x.clock, x.trace);
    }
    ScriptLocal(ctx, c.cond, true, d, true, p, q, clock, trace);
  }

  lemma {:induction false} ElseLocal(ctx: Context, e: Else, d: Mode, tested: bool, p: nat -> bool, q: nat -> bool, clock: nat, trace: seq<Event>)
    requires Same(p, q, clock, RunElse(ctx, e, d, tested, p, clock, trace).clock)
    ensures RunElse(ctx, e, d, tested, q, clock, trace) == RunElse(ctx, e, d, tested, p, clock, trace)
    decreases e, 0
  {
    match e
    case NoElse =>
    case Else(body) => ScriptLocal(ctx, body, true, d, tested, p, q, clock, trace);
    case Elif(clause) => CmdLocal(ctx, clause, d, tested, p, q, clock, trace);
  }
}
