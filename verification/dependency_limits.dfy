/**
  How far the dependency analysis can be trusted: the exact guard for a simple command, what
  leaves a script within the theorem, and scripts on which the analysis is wrong.
  */
module DependencyLimits {
  import opened Wrappers
  import opened ShellSyntax
  import opened DependencyAnalysis
  import opened CommandMeaning
  import opened ShellExecution
  import opened DependencyReference
  import opened DependencySoundness

  // ----- the claims for a simple command -----

  /** A refused redirection skips what the failure claims, and sudo can refuse to run `true`. */
  predicate TameEffect(e: Effect, m: Manner, redirected: bool) {
    && (redirected ==> e != Succeeds && e != InstallsOther)
    && (e == Succeeds && !m.leaves ==> !m.elevated)
  }

  /** What the analysis claims after a statement holds whenever the script goes on from there. */
  ghost predicate ClaimHolds(ctx: Context, s: Stmt) {
    forall input, d: Mode, tested: bool, pick: nat -> bool, clock: nat, trace ::
      Holds(input, trace) ==>
        var x := RunStmt(ctx, s, d, tested, pick, clock, trace);
        x.outcome.Ended? ==> Holds(Claimed(StmtFlow(ctx, s, input, []).flow, x.outcome.ok), x.trace)
  }

  lemma TameBacks(ctx: Context, s: Stmt, input: Facts, d: Mode, tested: bool)
    requires s.cmd.Call? && TameEffect(EffectOf(s.cmd.args), MannerOf(s.cmd.args, s.cmd.assigns), s.redirect != NoRedirect)
    requires input.reachable
    ensures var k, r := KnownStmt(ctx, s, input, d, tested).flow, StmtFlow(ctx, s, input, []).flow;
            Backs(k.success, r.success) && Backs(k.failure, r.failure)
  {
    var site := Site(ctx.command, s.cmd.end, ctx.source);
    ResultsBacked(site, EffectOf(s.cmd.args), MannerOf(s.cmd.args, s.cmd.assigns), input, s.redirect != NoRedirect);
  }

  lemma ResultsBacked(site: Site, e: Effect, m: Manner, input: Facts, redirected: bool)
    requires TameEffect(e, m, redirected) && input.reachable && (m.failing ==> m.leaves)
    ensures var k := MergeFlows(FailsWith(input, redirected), if m.leaves then NOFLOW else KnownResults(site, e, m, input));
            var r := CallFlow(site, e, input, []).flow;
            Backs(k.success, r.success) && Backs(k.failure, r.failure)
  {
  }

  /** For a simple command the claims hold in every execution if and only if it is tame. */
  lemma TameIff(ctx: Context, s: Stmt)
    requires s.cmd.Call?
    ensures TameEffect(EffectOf(s.cmd.args), MannerOf(s.cmd.args, s.cmd.assigns), s.redirect != NoRedirect) <==> ClaimHolds(ctx, s)
  {
    var e, m := EffectOf(s.cmd.args), MannerOf(s.cmd.args, s.cmd.assigns);
    var redirected := s.redirect != NoRedirect;
    if TameEffect(e, m, redirected) {
      forall input, d: Mode, tested: bool, pick: nat -> bool, clock: nat, trace | Holds(input, trace)
        ensures var x := RunStmt(ctx, s, d, tested, pick, clock, trace);
                x.outcome.Ended? ==> Holds(Claimed(StmtFlow(ctx, s, input, []).flow, x.outcome.ok), x.trace)
      {
        StmtKnows(ctx, s, input, d, tested, d, pick, clock, trace);
        TameBacks(ctx, s, input, d, tested);
      }
    } else {
      var pick := (n: nat) => redirected && n == 2;
      assert Holds(ANYTHING, []);
      var x := RunStmt(ctx, s, CALM, false, pick, 0, []);
      Breaks(ctx, s, pick);
      assert x.outcome.Ended? && !Holds(Claimed(StmtFlow(ctx, s, ANYTHING, []).flow, x.outcome.ok), x.trace);
    }
  }

  lemma Breaks(ctx: Context, s: Stmt, pick: nat -> bool)
    requires s.cmd.Call? && forall n :: pick(n) == (s.redirect != NoRedirect && n == 2)
    requires !TameEffect(EffectOf(s.cmd.args), MannerOf(s.cmd.args, s.cmd.assigns), s.redirect != NoRedirect)
    ensures var x := RunStmt(ctx, s, CALM, false, pick, 0, []);
            x.outcome.Ended? && !Holds(Claimed(StmtFlow(ctx, s, ANYTHING, []).flow, x.outcome.ok), x.trace)
  {
    EffectIsDeed(s.cmd.args);
    assert forall site :: !Prepared([], site);
  }

  // ----- a status nobody looks at -----

  /** `true > log`, `: > file` and `sudo true` in front of other statements do no harm: what fails there is only skipped. */
  lemma UnobservedStatus(ctx: Context, s: Stmt, rest: Script, input: Facts, ws: seq<Warning>, known: Facts, mode: Mode, tested: bool)
    requires s.cmd.Call? && EffectOf(s.cmd.args) == Succeeds && Stays(MannerOf(s.cmd.args, s.cmd.assigns)) && rest.Then?
    requires input.reachable && known.reachable
    ensures RightScript(ctx, Then(s, rest), Flow(input, NOWHERE), ws, Flow(known, NOWHERE), mode, tested) <==>
            RightScript(ctx, rest, Flow(input, NOWHERE), ws, Flow(known, NOWHERE), mode, tested)
  {
    var k := SkippedKnows(ctx, s, known, mode, tested);
    var r := SkippedFlows(ctx, s, input, ws);
    SameStart(ctx, rest, r.flow, Flow(input, NOWHERE), ws, k.flow, Flow(known, NOWHERE), mode, tested);
    assert RightStmt(ctx, s, input, ws, known, mode, tested);
  }

  lemma SkippedKnows(ctx: Context, s: Stmt, known: Facts, mode: Mode, tested: bool) returns (k: Reach)
    requires s.cmd.Call? && EffectOf(s.cmd.args) == Succeeds && Stays(MannerOf(s.cmd.args, s.cmd.assigns)) && known.reachable
    ensures k == KnownStmt(ctx, s, known, mode, tested) && Merge(k.flow.success, k.flow.failure) == known && k.mode == mode
  {
    var site, m := Site(ctx.command, s.cmd.end, ctx.source), MannerOf(s.cmd.args, s.cmd.assigns);
    var c := KnownCall(site, Succeeds, m, known, mode, tested || s.negated);
    assert KnownCmd(ctx, s.cmd, known, mode, tested || s.negated) == c;
    assert c.flow.success == known && c.mode == mode && (c.flow.failure == NOWHERE || c.flow.failure == known);
    SkippedReach(s, known, mode, tested || s.negated, c);
    k := StmtReach(s, known, mode, tested || s.negated, c);
  }

  lemma SkippedReach(s: Stmt, known: Facts, mode: Mode, shielded: bool, c: Reach)
    requires known.reachable && c.flow.success == known && c.mode == mode && (c.flow.failure == NOWHERE || c.flow.failure == known)
    ensures var k := StmtReach(s, known, mode, shielded, c); Merge(k.flow.success, k.flow.failure) == known && k.mode == mode
  {
  }

  lemma SkippedFlows(ctx: Context, s: Stmt, input: Facts, ws: seq<Warning>) returns (r: Analysis)
    requires s.cmd.Call? && EffectOf(s.cmd.args) == Succeeds && input.reachable
    ensures r == StmtFlow(ctx, s, input, ws) && Merge(r.flow.success, r.flow.failure) == input && r.warnings == ws
  {
    assert CmdFlow(ctx, s.cmd, input, ws) == CallFlow(Site(ctx.command, s.cmd.end, ctx.source), Succeeds, input, ws);
    r := StmtFlow(ctx, s, input, ws);
  }

  /** It neither leaves the shell of itself nor changes it. */
  predicate Stays(m: Manner) {
    !m.leaves && !m.unseen && !m.sets && !m.failing
  }

  // ----- options -----

  /** No subshell: a failure that ends the shell ends the block. */
  predicate FlatStmt(s: Stmt) {
    FlatCmd(s.cmd)
  }

  predicate FlatScript(s: Script) {
    s.Then? ==> FlatStmt(s.first) && FlatScript(s.rest)
  }

  predicate FlatCmd(c: Cmd) {
    match c
    case Nothing => true
    case Call(_, _, _) => true
    case Block(body) => FlatScript(body)
    case Subshell(body) => false
    case And(x, y) => FlatStmt(x) && FlatStmt(y)
    case Or(x, y) => FlatStmt(x) && FlatStmt(y)
    case If(cond, body, otherwise) => FlatScript(cond) && FlatScript(body) && FlatElse(otherwise)
  }

  predicate FlatElse(e: Else) {
    match e
    case NoElse => true
    case Else(body) => FlatScript(body)
    case Elif(clause) => FlatCmd(clause)
  }

  /** The same, but for what is known when the shell is left with failure. */
  predicate Alike(a: Reach, b: Reach) {
    a.flow == b.flow && a.left.success == b.left.success && a.mode.trapped == b.mode.trapped
  }

  lemma {:induction false} StmtAlike(ctx: Context, s: Stmt, input: Facts, m: Mode, n: Mode, tested: bool)
    requires FlatStmt(s) && m.trapped == n.trapped
    ensures Alike(KnownStmt(ctx, s, input, m, tested), KnownStmt(ctx, s, input, n, tested))
    decreases s, 0
  {
    CmdAlike(ctx, s.cmd, input, m, n, tested || s.negated);
  }

  lemma {:induction false} ScriptAlike(ctx: Context, s: Script, flow: Flow, m: Mode, n: Mode, tested: bool)
    requires FlatScript(s) && m.trapped == n.trapped
    ensures Alike(KnownScript(ctx, s, flow, m, tested), KnownScript(ctx, s, flow, n, tested))
    decreases s, 0
  {
    if s.Then? {
      var input := Merge(flow.success, flow.failure);
      var a, b := KnownStmt(ctx, s.first, input, m, tested), KnownStmt(ctx, s.first, input, n, tested);
      StmtAlike(ctx, s.first, input, m, n, tested);
      ScriptAlike(ctx, s.rest, a.flow, a.mode, b.mode, tested);
    }
  }

  lemma {:induction false} CmdAlike(ctx: Context, c: Cmd, input: Facts, m: Mode, n: Mode, tested: bool)
    requires FlatCmd(c) && m.trapped == n.trapped
    ensures Alike(KnownCmd(ctx, c, input, m, tested), KnownCmd(ctx, c, input, n, tested))
    decreases c, 1
  {
    match c
    case Nothing =>
    case Call(args, end, assigns) =>
    case Block(body) => ScriptAlike(ctx, body, Flow(input, NOWHERE), m, n, tested);
    case And(x, y) =>
      var a, b := KnownStmt(ctx, x, input, m, true), KnownStmt(ctx, x, input, n, true);
      StmtAlike(ctx, x, input, m, n, true);
      StmtAlike(ctx, y, a.flow.success, a.mode, b.mode, tested);
    case Or(x, y) =>
      var a, b := KnownStmt(ctx, x, input, m, true), KnownStmt(ctx, x, input, n, true);
      StmtAlike(ctx, x, input, m, n, true);
      StmtAlike(ctx, y, a.flow.failure, a.mode, b.mode, tested);
    case If(cond, body, otherwise) =>
      var a, b := KnownScript(ctx, cond, Flow(input, NOWHERE), m, true), KnownScript(ctx, cond, Flow(input, NOWHERE), n, true);
      ScriptAlike(ctx, cond, Flow(input, NOWHERE), m, n, true);
      ScriptAlike(ctx, body, Flow(a.flow.success, NOWHERE), a.mode, b.mode, tested);
      ElseAlike(ctx, otherwise, a.flow.failure, a.mode, b.mode, tested);
  }

  lemma {:induction false} ElseAlike(ctx: Context, e: Else, input: Facts, m: Mode, n: Mode, tested: bool)
    requires FlatElse(e) && m.trapped == n.trapped
    ensures Alike(KnownElse(ctx, e, input, m, tested), KnownElse(ctx, e, input, n, tested))
    decreases e, 0
  {
    match e
    case NoElse =>
    case Else(body) => ScriptAlike(ctx, body, Flow(input, NOWHERE), m, n, tested);
    case Elif(clause) => CmdAlike(ctx, clause, input, m, n, tested);
  }

  lemma {:induction false} StmtRightAlike(ctx: Context, s: Stmt, input: Facts, ws: seq<Warning>, known: Facts, m: Mode, n: Mode, tested: bool)
    requires FlatStmt(s) && m.trapped == n.trapped
    ensures RightStmt(ctx, s, input, ws, known, m, tested) == RightStmt(ctx, s, input, ws, known, n, tested)
    decreases s, 0
  {
    CmdRightAlike(ctx, s.cmd, input, ws, known, m, n, tested || s.negated);
  }

  lemma {:induction false} ScriptRightAlike(ctx: Context, s: Script, flow: Flow, ws: seq<Warning>, known: Flow, m: Mode, n: Mode, tested: bool)
    requires FlatScript(s) && m.trapped == n.trapped
    ensures RightScript(ctx, s, flow, ws, known, m, tested) == RightScript(ctx, s, flow, ws, known, n, tested)
    decreases s, 0
  {
    if s.Then? {
      var input, there := Merge(flow.success, flow.failure), Merge(known.success, known.failure);
      var r := StmtFlow(ctx, s.first, input, ws);
      var a, b := KnownStmt(ctx, s.first, there, m, tested), KnownStmt(ctx, s.first, there, n, tested);
      StmtAlike(ctx, s.first, there, m, n, tested);
      StmtRightAlike(ctx, s.first, input, ws, there, m, n, tested);
      ScriptRightAlike(ctx, s.rest, r.flow, r.warnings, a.flow, a.mode, b.mode, tested);
    }
  }

  lemma {:induction false} CmdRightAlike(ctx: Context, c: Cmd, input: Facts, ws: seq<Warning>, known: Facts, m: Mode, n: Mode, tested: bool)
    requires FlatCmd(c) && m.trapped == n.trapped
    ensures RightCmd(ctx, c, input, ws, known, m, tested) == RightCmd(ctx, c, input, ws, known, n, tested)
    decreases c, 1
  {
    match c
    case Nothing =>
    case Call(args, end, assigns) =>
    case Block(body) => ScriptRightAlike(ctx, body, Flow(input, NOWHERE), ws, Flow(known, NOWHERE), m, n, tested);
    case And(x, y) =>
      var r, a, b := StmtFlow(ctx, x, input, ws), KnownStmt(ctx, x, known, m, true), KnownStmt(ctx, x, known, n, true);
      StmtAlike(ctx, x, known, m, n, true);
      StmtRightAlike(ctx, x, input, ws, known, m, n, true);
      StmtRightAlike(ctx, y, r.flow.success, r.warnings, a.flow.success, a.mode, b.mode, tested);
    case Or(x, y) =>
      var r, a, b := StmtFlow(ctx, x, input, ws), KnownStmt(ctx, x, known, m, true), KnownStmt(ctx, x, known, n, true);
      StmtAlike(ctx, x, known, m, n, true);
      StmtRightAlike(ctx, x, input, ws, known, m, n, true);
      StmtRightAlike(ctx, y, r.flow.failure, r.warnings, a.flow.failure, a.mode, b.mode, tested);
    case If(cond, body, otherwise) =>
      var r, f := ScriptFlow(ctx, cond, Flow(input, NOWHERE), ws), Flow(known, NOWHERE);
      var q := ScriptFlow(ctx, body, Flow(r.flow.success, NOWHERE), r.warnings);
      var a, b := KnownScript(ctx, cond, f, m, true), KnownScript(ctx, cond, f, n, true);
      ScriptAlike(ctx, cond, f, m, n, true);
      ScriptRightAlike(ctx, cond, Flow(input, NOWHERE), ws, f, m, n, true);
      ScriptRightAlike(ctx, body, Flow(r.flow.success, NOWHERE), r.warnings, Flow(a.flow.success, NOWHERE), a.mode, b.mode, tested);
      ElseRightAlike(ctx, otherwise, r.flow.failure, q.warnings, a.flow.failure, a.mode, b.mode, tested);
  }

  lemma {:induction false} ElseRightAlike(ctx: Context, e: Else, input: Facts, ws: seq<Warning>, known: Facts, m: Mode, n: Mode, tested: bool)
    requires FlatElse(e) && m.trapped == n.trapped
    ensures RightElse(ctx, e, input, ws, known, m, tested) == RightElse(ctx, e, input, ws, known, n, tested)
    decreases e, 0
  {
    match e
    case NoElse =>
    case Else(body) => ScriptRightAlike(ctx, body, Flow(input, NOWHERE), ws, Flow(known, NOWHERE), m, n, tested);
    case Elif(clause) => CmdRightAlike(ctx, clause, input, ws, known, m, n, tested);
  }

  /** A statement such as `set -e`: it sets options, and does nothing else. */
  predicate SetsOptions(s: Stmt) {
    && s.cmd.Call? && !s.negated && s.redirect == NoRedirect && EffectOf(s.cmd.args) == Plain
    && var m := MannerOf(s.cmd.args, s.cmd.assigns); m.sets && !m.leaves && !m.unseen && !m.failing
  }

  lemma SetKnows(ctx: Context, s: Stmt, known: Facts)
    requires SetsOptions(s) && known.reachable
    ensures var k := KnownStmt(ctx, s, known, CALM, false);
            k.flow == Flow(known, known) && k.left.success == NOWHERE && k.mode == Mode(true, false)
    ensures Merge(known, known) == known
  {
  }

  /**
    Options such as `set -e` in front of a block without subshells change nothing: the analysis
    claims the same, is right about the same uses, and what is known of a block that succeeds
    is the same, unless unseen code has set a trap.
    */
  lemma OptionsAreHarmless(ctx: Context, s: Stmt, rest: Script, input: Facts, ws: seq<Warning>, known: Facts)
    requires SetsOptions(s) && rest.Then? && FlatScript(rest) && input.reachable && known.reachable
    ensures ScriptFlow(ctx, Then(s, rest), Flow(input, NOWHERE), ws) == ScriptFlow(ctx, rest, Flow(input, NOWHERE), ws)
    ensures RightScript(ctx, Then(s, rest), Flow(input, NOWHERE), ws, Flow(known, NOWHERE), CALM, false) <==>
            RightScript(ctx, rest, Flow(input, NOWHERE), ws, Flow(known, NOWHERE), CALM, false)
    ensures var a, b := KnownScript(ctx, Then(s, rest), Flow(known, NOWHERE), CALM, false), KnownScript(ctx, rest, Flow(known, NOWHERE), CALM, false);
            a.mode.trapped == b.mode.trapped && (!b.mode.trapped ==> KnownStatus(a).success == KnownStatus(b).success)
  {
    SetKnows(ctx, s, known);
    SetFlows(ctx, s, input, ws);
    var strict := Mode(true, false);
    assert RightStmt(ctx, s, input, ws, known, CALM, false);
    SameStart(ctx, rest, Flow(input, input), Flow(input, NOWHERE), ws, Flow(known, known), Flow(known, NOWHERE), strict, false);
    ScriptAlike(ctx, rest, Flow(known, NOWHERE), strict, CALM, false);
    ScriptRightAlike(ctx, rest, Flow(input, NOWHERE), ws, Flow(known, NOWHERE), strict, CALM, false);
  }

  lemma SetFlows(ctx: Context, s: Stmt, input: Facts, ws: seq<Warning>)
    requires SetsOptions(s) && input.reachable
    ensures StmtFlow(ctx, s, input, ws) == Analysis(Flow(input, input), ws) && Merge(input, input) == input
  {
    assert CmdFlow(ctx, s.cmd, input, ws) == CallFlow(Site(ctx.command, s.cmd.end, ctx.source), Plain, input, ws);
  }

  /** A list only sees the merged facts in front of it. */
  lemma SameStart(ctx: Context, rest: Script, f: Flow, g: Flow, ws: seq<Warning>, k: Flow, l: Flow, mode: Mode, tested: bool)
    requires rest.Then? && Merge(f.success, f.failure) == Merge(g.success, g.failure)
    requires Merge(k.success, k.failure) == Merge(l.success, l.failure)
    ensures ScriptFlow(ctx, rest, f, ws) == ScriptFlow(ctx, rest, g, ws)
    ensures KnownScript(ctx, rest, k, mode, tested) == KnownScript(ctx, rest, l, mode, tested)
    ensures RightScript(ctx, rest, f, ws, k, mode, tested) == RightScript(ctx, rest, g, ws, l, mode, tested)
  {
  }
}
