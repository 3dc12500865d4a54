/**
  The dependency analysis is sound on sober scripts, a class read off the script alone: for
  every execution of every list of sober blocks, its warnings and its final claim are right.
  */
module DependencyGuarantees {
  import opened Wrappers
  import opened ShellSyntax
  import opened DependencyAnalysis
  import opened ShellExecution
  import opened DependencyReference
  import opened DependencySoundness

  // ----- sober scripts -----

  /** Which outcomes of a statement somebody goes by: both alike, only success, or each for itself. */
  datatype View = Merged | OnSuccess | Each

  /** Where a statement stands: in a block with options, in a subshell, where failure is tested, and who goes by it. */
  datatype Place = Place(strict: bool, confined: bool, tested: bool, view: View)

  /**
    No code that is not seen; no way to leave but with failure, and none out of a subshell;
    options only in a block that allows for them; and no `true` under sudo where its failure counts.
    */
  predicate SoberCall(e: Effect, m: Manner, at: Place) {
    && !m.unseen && (m.leaves ==> m.failing) && (m.sets ==> at.strict)
    && (at.confined ==> !m.leaves && !m.sets && !m.brittle)
    && (at.view == Each && e == Succeeds ==> !m.elevated)
  }

  /** A refused redirection must not leave a subshell, and what was known before must be enough for whoever goes on. */
  predicate SoberRedirect(s: Stmt, at: Place) {
    s.redirect != NoRedirect ==>
      && (at.confined ==> !Touchy(s))
      && match at.view
         case OnSuccess => true
         case Each => s.cmd.Call? && EffectOf(s.cmd.args) != Succeeds && EffectOf(s.cmd.args) != InstallsOther
         case Merged => if s.cmd.Call? then EffectOf(s.cmd.args) != InstallsOther else AddsNothing(s.cmd)
  }

  function Within(s: Stmt, at: Place): (r: Place) {
    at.(tested := at.tested || s.negated, view := if s.negated && at.view == OnSuccess then Each else at.view)
  }

  predicate SoberStmt(s: Stmt, at: Place) {
    SoberRedirect(s, Within(s, at)) && SoberCmd(s.cmd, Within(s, at))
  }

  predicate SoberScript(s: Script, at: Place) {
    s.Then? ==> SoberStmt(s.first, if s.rest.End? then at else at.(view := Merged)) && SoberScript(s.rest, at)
  }

  /** Only an untested subshell behind options is excluded: what fails there may or may not end it. */
  predicate SoberCmd(c: Cmd, at: Place) {
    match c
    case Nothing => true
    case Call(args, _, assigns) => SoberCall(EffectOf(args), MannerOf(args, assigns), at)
    case Block(body) => SoberScript(body, at)
    case Subshell(body) => (at.strict ==> at.tested) && SoberScript(body, at.(confined := true))
    case And(x, y) => SoberStmt(x, LeftOfAnd(at)) && SoberStmt(y, at)
    case Or(x, y) => SoberStmt(x, Tested(at)) && SoberStmt(y, at)
    case If(cond, body, otherwise) => SoberScript(cond, Tested(at)) && SoberScript(body, at) && SoberElse(otherwise, at)
  }

  predicate SoberElse(e: Else, at: Place) {
    match e
    case NoElse => true
    case Else(body) => SoberScript(body, at)
    case Elif(clause) => SoberCmd(clause, at)
  }

  function Tested(at: Place): (r: Place) {
    at.(tested := true, view := Each)
  }

  function LeftOfAnd(at: Place): (r: Place) {
    at.(tested := true, view := if at.view == OnSuccess then OnSuccess else Each)
  }

  /** A whole block, with or without options: what counts is its success. */
  predicate SoberBlock(s: Script) {
    exists strict :: SoberScript(s, Place(strict, false, false, OnSuccess))
  }

  predicate SoberSources(sources: seq<Source>) {
    forall i :: 0 <= i < |sources| && sources[i].script.Some? ==> SoberBlock(sources[i].script.value)
  }

  // ----- commands that install nothing -----

  predicate Adds(e: Effect) {
    e == InstallsCurl || e == InstallsOther
  }

  predicate AddsNothing(c: Cmd) {
    match c
    case Nothing => true
    case Call(args, _, _) => !Adds(EffectOf(args))
    case Block(body) => AddsNothingScript(body)
    case Subshell(body) => AddsNothingScript(body)
    case And(x, y) => AddsNothing(x.cmd) && AddsNothing(y.cmd)
    case Or(x, y) => AddsNothing(x.cmd) && AddsNothing(y.cmd)
    case If(cond, body, otherwise) => AddsNothingScript(cond) && AddsNothingScript(body) && AddsNothingElse(otherwise)
  }

  predicate AddsNothingScript(s: Script) {
    s.Then? ==> AddsNothing(s.first.cmd) && AddsNothingScript(s.rest)
  }

  predicate AddsNothingElse(e: Else) {
    match e
    case NoElse => true
    case Else(body) => AddsNothingScript(body)
    case Elif(clause) => AddsNothing(clause)
  }

  /** Nothing is claimed that was not known before, and some outcome is still expected. */
  predicate Weaker(input: Facts, flow: Flow) {
    && (flow.success.reachable ==> input.reachable && Entails(input, flow.success))
    && (flow.failure.reachable ==> input.reachable && Entails(input, flow.failure))
    && (input.reachable ==> flow.success.reachable || flow.failure.reachable)
  }

  lemma {:induction false} StmtWeaker(ctx: Context, s: Stmt, input: Facts, ws: seq<Warning>)
    requires AddsNothing(s.cmd)
    ensures Weaker(input, StmtFlow(ctx, s, input, ws).flow)
    decreases s, 0
  {
    CmdWeaker(ctx, s.cmd, input, ws);
  }

  lemma {:induction false} ScriptWeaker(ctx: Context, s: Script, input: Facts, flow: Flow, ws: seq<Warning>)
    requires AddsNothingScript(s) && Weaker(input, flow)
    ensures Weaker(input, ScriptFlow(ctx, s, flow, ws).flow)
    decreases s, 0
  {
    if s.Then? {
      var r := StmtFlow(ctx, s.first, Merge(flow.success, flow.failure), ws);
      StmtWeaker(ctx, s.first, Merge(flow.success, flow.failure), ws);
      ScriptWeaker(ctx, s.rest, input, r.flow, r.warnings);
    }
  }

  lemma {:induction false} CmdWeaker(ctx: Context, c: Cmd, input: Facts, ws: seq<Warning>)
    requires AddsNothing(c)
    ensures Weaker(input, CmdFlow(ctx, c, input, ws).flow)
    decreases c, 1
  {
    match c
    case Nothing =>
    case Call(args, end, assigns) =>
    case Block(body) => ScriptWeaker(ctx, body, input, Flow(input, NOWHERE), ws);
    case Subshell(body) => ScriptWeaker(ctx, body, input, Flow(input, NOWHERE), ws);
    case And(x, y) =>
      var r := StmtFlow(ctx, x, input, ws);
      StmtWeaker(ctx, x, input, ws);
      StmtWeaker(ctx, y, r.flow.success, r.warnings);
    case Or(x, y) =>
      var r := StmtFlow(ctx, x, input, ws);
      StmtWeaker(ctx, x, input, ws);
      StmtWeaker(ctx, y, r.flow.failure, r.warnings);
    case If(cond, body, otherwise) =>
      var r := ScriptFlow(ctx, cond, Flow(input, NOWHERE), ws);
      var q := ScriptFlow(ctx, body, Flow(r.flow.success, NOWHERE), r.warnings);
      ScriptWeaker(ctx, cond, input, Flow(input, NOWHERE), ws);
      ScriptWeaker(ctx, body, r.flow.success, Flow(r.flow.success, NOWHERE), r.warnings);
      ElseWeaker(ctx, otherwise, r.flow.failure, q.warnings);
      BranchWeaker(input, r.flow, q.flow, ElseFlow(ctx, otherwise, r.flow.failure, q.warnings).flow);
  }

  lemma BranchWeaker(input: Facts, condition: Flow, a: Flow, b: Flow)
    requires Weaker(input, condition) && Weaker(condition.success, a) && Weaker(condition.failure, b)
    ensures Weaker(input, MergeFlows(a, b))
  {
  }

  lemma {:induction false} ElseWeaker(ctx: Context, e: Else, input: Facts, ws: seq<Warning>)
    requires AddsNothingElse(e)
    ensures Weaker(input, ElseFlow(ctx, e, input, ws).flow)
    decreases e, 0
  {
    match e
    case NoElse =>
    case Else(body) => ScriptWeaker(ctx, body, input, Flow(input, NOWHERE), ws);
    case Elif(clause) => CmdWeaker(ctx, clause, input, ws);
  }

  // ----- the claims of the analysis are backed -----

  /** What is known backs what is claimed, as far as somebody goes by it. */
  predicate Agrees(known: Flow, flow: Flow, view: View) {
    match view
    case Merged => Backs(Merge(known.success, known.failure), Merge(flow.success, flow.failure))
    case OnSuccess => Backs(known.success, flow.success)
    case Each => Backs(known.success, flow.success) && Backs(known.failure, flow.failure)
  }

  /** A shell is left with failure only, and a subshell not at all. */
  predicate LeftWell(left: Flow, confined: bool) {
    !left.success.reachable && (confined ==> !left.failure.reachable)
  }

  predicate Suits(mode: Mode, at: Place) {
    !mode.trapped && (mode.strict ==> at.strict)
  }

  predicate Fits(k: Reach, flow: Flow, at: Place) {
    Agrees(k.flow, flow, at.view) && LeftWell(k.left, at.confined) && Suits(k.mode, at)
  }

  /** In a subshell no failure ends the shell. */
  predicate Stands(mode: Mode, at: Place) {
    Suits(mode, at) && (at.confined && at.strict ==> at.tested)
  }

  lemma CallBacked(site: Site, e: Effect, m: Manner, input: Facts, ws: seq<Warning>, known: Facts, mode: Mode, at: Place)
    requires SoberCall(e, m, at) && (m.failing ==> m.leaves) && Backs(known, input) && Stands(mode, at)
    ensures Fits(KnownCall(site, e, m, known, mode, at.tested), CallFlow(site, e, input, ws).flow, at)
    ensures known.reachable ==> Honest(known, input)
  {
  }

  /** What a refused redirection leaves is enough for whoever goes on. */
  lemma RedirectBacked(ctx: Context, s: Stmt, input: Facts, ws: seq<Warning>, known: Facts, at: Place)
    requires SoberRedirect(s, at) && s.redirect != NoRedirect && known.reachable && Backs(known, input)
    ensures var r := CmdFlow(ctx, s.cmd, input, ws).flow;
            match at.view
            case Merged => Entails(known, Merge(r.success, r.failure))
            case OnSuccess => true
            case Each => Entails(known, r.failure)
  {
    var r := CmdFlow(ctx, s.cmd, input, ws).flow;
    if s.cmd.Call? {
      assert r == CallFlow(Site(ctx.command, s.cmd.end, ctx.source), EffectOf(s.cmd.args), input, ws).flow;
    } else if at.view == Merged {
      CmdWeaker(ctx, s.cmd, input, ws);
    }
  }

  /** The statement's own ways to fail and to leave, around a command that fits. */
  lemma AroundBacked(s: Stmt, known: Facts, mode: Mode, k: Reach, r: Flow, at: Place)
    requires Fits(k, r, at) && Stands(mode, at) && known.reachable && (at.confined && s.redirect != NoRedirect ==> !Touchy(s))
    requires s.redirect != NoRedirect ==>
               match at.view
               case Merged => Entails(known, Merge(r.success, r.failure))
               case OnSuccess => true
               case Each => Entails(known, r.failure)
    ensures Fits(StmtReach(s.(negated := false), known, mode, at.tested, k), r, at)
  {
  }

  lemma NegatedBacked(k: Reach, r: Flow, at: Place, inner: Place)
    requires Fits(k, r, inner) && inner.confined == at.confined && inner.strict == at.strict
    requires inner.view == if at.view == OnSuccess then Each else at.view
    ensures Fits(Reach(Flow(k.flow.failure, k.flow.success), k.left, k.mode), Flow(r.failure, r.success), at)
  {
  }

  lemma {:induction false} StmtBacked(ctx: Context, s: Stmt, input: Facts, ws: seq<Warning>, known: Facts, mode: Mode, at: Place)
    requires SoberStmt(s, at) && Backs(known, input) && Stands(mode, at)
    ensures Fits(KnownStmt(ctx, s, known, mode, at.tested), StmtFlow(ctx, s, input, ws).flow, at)
    ensures RightStmt(ctx, s, input, ws, known, mode, at.tested)
    decreases s, 0
  {
    if known.reachable {
      var inner := Within(s, at);
      var k, r := KnownCmd(ctx, s.cmd, known, mode, inner.tested), CmdFlow(ctx, s.cmd, input, ws).flow;
      CmdBacked(ctx, s.cmd, input, ws, known, mode, inner);
      if s.redirect != NoRedirect {
        RedirectBacked(ctx, s, input, ws, known, inner);
      }
      AroundBacked(s, known, mode, k, r, inner);
      StmtFits(s, known, mode, k, r, at);
    }
  }

  /** A negated statement changes the roles of its outcomes. */
  lemma StmtFits(s: Stmt, known: Facts, mode: Mode, k: Reach, r: Flow, at: Place)
    requires Fits(StmtReach(s.(negated := false), known, mode, at.tested || s.negated, k), r, Within(s, at))
    ensures Fits(StmtReach(s, known, mode, at.tested || s.negated, k), if s.negated then Flow(r.failure, r.success) else r, at)
  {
    if s.negated {
      NegatedBacked(StmtReach(s.(negated := false), known, mode, true, k), r, at, Within(s, at));
    }
  }

  lemma {:induction false} ScriptBacked(ctx: Context, s: Script, flow: Flow, ws: seq<Warning>, known: Flow, mode: Mode, at: Place)
    requires SoberScript(s, at) && Agrees(known, flow, if s.End? then at.view else Merged) && Stands(mode, at)
    ensures Fits(KnownScript(ctx, s, known, mode, at.tested), ScriptFlow(ctx, s, flow, ws).flow, at)
    ensures RightScript(ctx, s, flow, ws, known, mode, at.tested)
    decreases s, 0
  {
    if s.Then? {
      var input, there := Merge(flow.success, flow.failure), Merge(known.success, known.failure);
      var here := if s.rest.End? then at else at.(view := Merged);
      var k, r := KnownStmt(ctx, s.first, there, mode, at.tested), StmtFlow(ctx, s.first, input, ws);
      StmtBacked(ctx, s.first, input, ws, there, mode, here);
      ScriptBacked(ctx, s.rest, r.flow, r.warnings, k.flow, k.mode, at);
    }
  }

  lemma {:induction false} CmdBacked(ctx: Context, c: Cmd, input: Facts, ws: seq<Warning>, known: Facts, mode: Mode, at: Place)
    requires SoberCmd(c, at) && Backs(known, input) && Stands(mode, at)
    ensures Fits(KnownCmd(ctx, c, known, mode, at.tested), CmdFlow(ctx, c, input, ws).flow, at)
    ensures RightCmd(ctx, c, input, ws, known, mode, at.tested)
    decreases c, 1
  {
    match c
    case Nothing =>
    case Call(args, end, assigns) =>
      CallBacked(Site(ctx.command, end, ctx.source), EffectOf(args), MannerOf(args, assigns), input, ws, known, mode, at);
    case Block(body) => BlockBodyBacked(ctx, body, input, ws, known, mode, at);
    case Subshell(body) => SubshellBacked(ctx, body, input, ws, known, mode, at);
    case And(x, y) => AndBacked(ctx, c, input, ws, known, mode, at);
    case Or(x, y) => OrBacked(ctx, c, input, ws, known, mode, at);
    case If(cond, body, otherwise) => IfBacked(ctx, c, input, ws, known, mode, at);
  }

  lemma BlockBodyBacked(ctx: Context, body: Script, input: Facts, ws: seq<Warning>, known: Facts, mode: Mode, at: Place)
    requires SoberScript(body, at) && Backs(known, input) && Stands(mode, at)
    ensures Fits(KnownScript(ctx, body, Flow(known, NOWHERE), mode, at.tested), ScriptFlow(ctx, body, Flow(input, NOWHERE), ws).flow, at)
    ensures RightScript(ctx, body, Flow(input, NOWHERE), ws, Flow(known, NOWHERE), mode, at.tested)
    decreases body, 1
  {
    StartAgrees(known, input, if body.End? then at.view else Merged);
    ScriptBacked(ctx, body, Flow(input, NOWHERE), ws, Flow(known, NOWHERE), mode, at);
  }

  lemma StartAgrees(known: Facts, input: Facts, view: View)
    requires Backs(known, input)
    ensures Agrees(Flow(known, NOWHERE), Flow(input, NOWHERE), view)
  {
  }

  lemma SubshellBacked(ctx: Context, body: Script, input: Facts, ws: seq<Warning>, known: Facts, mode: Mode, at: Place)
    requires SoberCmd(Subshell(body), at) && Backs(known, input) && Stands(mode, at)
    ensures Fits(KnownCmd(ctx, Subshell(body), known, mode, at.tested), CmdFlow(ctx, Subshell(body), input, ws).flow, at)
    ensures RightCmd(ctx, Subshell(body), input, ws, known, mode, at.tested)
    decreases body, 2
  {
    BlockBodyBacked(ctx, body, input, ws, known, mode.(trapped := false), at.(confined := true));
  }

  lemma AndBacked(ctx: Context, c: Cmd, input: Facts, ws: seq<Warning>, known: Facts, mode: Mode, at: Place)
    requires c.And? && SoberCmd(c, at) && Backs(known, input) && Stands(mode, at)
    ensures Fits(KnownCmd(ctx, c, known, mode, at.tested), CmdFlow(ctx, c, input, ws).flow, at)
    ensures RightCmd(ctx, c, input, ws, known, mode, at.tested)
    decreases c, 0
  {
    var a, r := KnownStmt(ctx, c.x, known, mode, true), StmtFlow(ctx, c.x, input, ws);
    var b, q := KnownStmt(ctx, c.y, a.flow.success, a.mode, at.tested), StmtFlow(ctx, c.y, r.flow.success, r.warnings);
    StmtBacked(ctx, c.x, input, ws, known, mode, LeftOfAnd(at));
    StmtBacked(ctx, c.y, r.flow.success, r.warnings, a.flow.success, a.mode, at);
    AndFits(a, b, r.flow, q.flow, at);
  }

  lemma AndFits(a: Reach, b: Reach, r: Flow, q: Flow, at: Place)
    requires Fits(a, r, LeftOfAnd(at)) && Fits(b, q, at)
    ensures Fits(AndReach(a, b), Flow(q.success, Merge(r.failure, q.failure)), at)
  {
  }

  lemma OrBacked(ctx: Context, c: Cmd, input: Facts, ws: seq<Warning>, known: Facts, mode: Mode, at: Place)
    requires c.Or? && SoberCmd(c, at) && Backs(known, input) && Stands(mode, at)
    ensures Fits(KnownCmd(ctx, c, known, mode, at.tested), CmdFlow(ctx, c, input, ws).flow, at)
    ensures RightCmd(ctx, c, input, ws, known, mode, at.tested)
    decreases c, 0
  {
    var a, r := KnownStmt(ctx, c.x, known, mode, true), StmtFlow(ctx, c.x, input, ws);
    var b, q := KnownStmt(ctx, c.y, a.flow.failure, a.mode, at.tested), StmtFlow(ctx, c.y, r.flow.failure, r.warnings);
    StmtBacked(ctx, c.x, input, ws, known, mode, Tested(at));
    StmtBacked(ctx, c.y, r.flow.failure, r.warnings, a.flow.failure, a.mode, at);
    OrFits(a, b, r.flow, q.flow, at);
  }

  lemma OrFits(a: Reach, b: Reach, r: Flow, q: Flow, at: Place)
    requires Fits(a, r, Tested(at)) && Fits(b, q, at)
    ensures Fits(OrReach(a, b), Flow(Merge(r.success, q.success), q.failure), at)
  {
  }

  lemma IfBacked(ctx: Context, c: Cmd, input: Facts, ws: seq<Warning>, known: Facts, mode: Mode, at: Place)
    requires c.If? && SoberCmd(c, at) && Backs(known, input) && Stands(mode, at)
    ensures Fits(KnownCmd(ctx, c, known, mode, at.tested), CmdFlow(ctx, c, input, ws).flow, at)
    ensures RightCmd(ctx, c, input, ws, known, mode, at.tested)
    decreases c, 0
  {
    var a, r := KnownScript(ctx, c.cond, Flow(known, NOWHERE), mode, true), ScriptFlow(ctx, c.cond, Flow(input, NOWHERE), ws);
    BlockBodyBacked(ctx, c.cond, input, ws, known, mode, Tested(at));
    var b := KnownScript(ctx, c.body, Flow(a.flow.success, NOWHERE), a.mode, at.tested);
    var q := ScriptFlow(ctx, c.body, Flow(r.flow.success, NOWHERE), r.warnings);
    BlockBodyBacked(ctx, c.body, r.flow.success, r.warnings, a.flow.success, a.mode, at);
    ElseBacked(ctx, c.otherwise, r.flow.failure, q.warnings, a.flow.failure, a.mode, at);
    IfFits(a, b, KnownElse(ctx, c.otherwise, a.flow.failure, a.mode, at.tested), r.flow, q.flow,
           ElseFlow(ctx, c.otherwise, r.flow.failure, q.warnings).flow, at);
  }

  lemma IfFits(a: Reach, b: Reach, c: Reach, r: Flow, q: Flow, e: Flow, at: Place)
    requires Fits(a, r, Tested(at)) && Fits(b, q, at) && Fits(c, e, at)
    ensures Fits(Reach(MergeFlows(b.flow, c.flow), MergeFlows(a.left, MergeFlows(b.left, c.left)), Join(a.mode, Join(b.mode, c.mode))),
                 MergeFlows(q, e), at)
  {
    BranchAgrees(b.flow, c.flow, q, e, at.view);
  }

  lemma BranchAgrees(b: Flow, c: Flow, q: Flow, e: Flow, view: View)
    requires Agrees(b, q, view) && Agrees(c, e, view)
    ensures Agrees(MergeFlows(b, c), MergeFlows(q, e), view)
  {
  }

  lemma {:induction false} ElseBacked(ctx: Context, e: Else, input: Facts, ws: seq<Warning>, known: Facts, mode: Mode, at: Place)
    requires SoberElse(e, at) && Backs(known, input) && Stands(mode, at)
    ensures Fits(KnownElse(ctx, e, known, mode, at.tested), ElseFlow(ctx, e, input, ws).flow, at)
    ensures RightElse(ctx, e, input, ws, known, mode, at.tested)
    decreases e, 0
  {
    match e
    case NoElse =>
    case Else(body) => BlockBodyBacked(ctx, body, input, ws, known, mode, at);
    case Elif(clause) => CmdBacked(ctx, clause, input, ws, known, mode, at);
  }

  // ----- whole reports -----

  lemma BlockBacked(p: Progress, i: nat, source: Source, known: Facts)
    requires Backs(known, p.facts) && (source.script.Some? ==> SoberBlock(source.script.value))
    requires p.stopped ==> p.facts == ANYTHING
    ensures RightBlock(p, i, source, known) && Backs(KnownBlock(p, i, source, known), Advance(p, i, source).facts)
  {
    if Analysable(p, i, source) {
      var ctx, script := Context(i, source.text), source.script.value;
      var strict :| SoberScript(script, Place(strict, false, false, OnSuccess));
      ScriptBacked(ctx, script, Flow(p.facts, NOWHERE), p.warnings, Flow(known, NOWHERE), CALM, Place(strict, false, false, OnSuccess));
    }
  }

  lemma {:induction false} StoppedKnowsNothing(sources: seq<Source>)
    ensures AdvanceAll(sources).stopped ==> AdvanceAll(sources).facts == ANYTHING
  {
    if sources != [] {
      StoppedKnowsNothing(sources[..|sources| - 1]);
    }
  }

  /** On sober blocks everything the analysis claims is backed, block after block. */
  lemma {:induction false} BlocksBacked(sources: seq<Source>)
    requires SoberSources(sources)
    ensures RightSources(sources) && Backs(KnownBlocks(sources), AdvanceAll(sources).facts)
    decreases |sources|
  {
    if sources != [] {
      var n := |sources| - 1;
      BlocksBacked(sources[..n]);
      StoppedKnowsNothing(sources[..n]);
      BlockBacked(AdvanceAll(sources[..n]), n, sources[n], KnownBlocks(sources[..n]));
      forall i | 0 <= i < |sources| ensures RightAt(sources, i) {
        if i < n {
          assert sources[..n][..i] == sources[..i] && RightAt(sources[..n], i);
        }
      }
    }
  }

  /**
    The report is right about every execution of every list of sober blocks: each analysed curl
    call reached without a literal install still in force is warned about, a suggested fix was
    reached on the way to every such call and not undone, and what the report says of a
    completed bootstrap is true of it.
    */
  lemma ReportSound(sources: seq<Source>, pick: nat -> bool, unknown: nat -> seq<Event>)
    requires SoberSources(sources)
    requires forall i, k :: 0 <= k < |unknown(i)| ==> !unknown(i)[k].Used?
    ensures var p, b := AdvanceAll(sources), RunBlocks(sources, pick, unknown);
            Covered(p.warnings, b.trace) && (b.alive ==> Holds(p.facts, b.trace))
  {
    BlocksBacked(sources);
    ReportCovered(sources, pick, unknown);
    BlocksKnown(sources, pick, unknown);
  }
}
