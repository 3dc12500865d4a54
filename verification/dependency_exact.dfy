/**
  On sober scripts in which no call always leaves the shell, the report is exact: it claims
  curl if and only if every completed bootstrap has it, and warns about a block if and only if
  some execution uses curl there without an install.
  */
module DependencyExact {
  import opened Wrappers
  import opened ShellSyntax
  import opened DependencyAnalysis
  import opened ShellExecution
  import opened ShellLocality
  import opened DependencyReference
  import opened DependencySoundness
  import opened DependencyGuarantees
  import opened DependencyPrecision

  // ----- which blocks are warned about -----

  function Commands(ws: seq<Warning>): (r: set<nat>) {
    set w | w in ws :: w.command
  }

  lemma {:induction false} WarnedCommands(ws: seq<Warning>, command: nat, fix: Option<Site>)
    ensures Commands(Warned(ws, command, fix)) == Commands(ws) + {command}
  {
    var r := Warned(ws, command, fix);
    if ws == [] {
      assert r == [Warning(command, fix)];
    } else if ws[0].command != command {
      WarnedCommands(ws[1..], command, fix);
      CommandsCons(ws[0], ws[1..]);
      CommandsCons(ws[0], Warned(ws[1..], command, fix));
      assert ws == [ws[0]] + ws[1..];
    } else {
      CommandsCons(ws[0], ws[1..]);
      CommandsCons(r[0], ws[1..]);
      assert ws == [ws[0]] + ws[1..] && r == [r[0]] + ws[1..];
    }
  }

  lemma CommandsCons(w: Warning, ws: seq<Warning>)
    ensures Commands([w] + ws) == {w.command} + Commands(ws)
  {
    assert forall v :: v in [w] + ws <==> v == w || v in ws;
  }

  /** Analysing a block warns about that block only. */
  predicate Grows(ws: seq<Warning>, r: seq<Warning>, command: nat) {
    Commands(ws) <= Commands(r) <= Commands(ws) + {command}
  }

  lemma GrowsTrans(a: seq<Warning>, b: seq<Warning>, c: seq<Warning>, command: nat)
    requires Grows(a, b, command) && Grows(b, c, command)
    ensures Grows(a, c, command)
  {
  }

  lemma CallGrows(site: Site, e: Effect, input: Facts, ws: seq<Warning>)
    ensures Grows(ws, CallFlow(site, e, input, ws).warnings, site.command)
  {
    WarnedCommands(ws, site.command, input.fix);
  }

  lemma {:induction false} StmtGrows(ctx: Context, s: Stmt, input: Facts, ws: seq<Warning>)
    ensures Grows(ws, StmtFlow(ctx, s, input, ws).warnings, ctx.command)
    decreases s, 0
  {
    CmdGrows(ctx, s.cmd, input, ws);
  }

  lemma {:induction false} ScriptGrows(ctx: Context, s: Script, flow: Flow, ws: seq<Warning>)
    ensures Grows(ws, ScriptFlow(ctx, s, flow, ws).warnings, ctx.command)
    decreases s, 0
  {
    if s.Then? {
      var r := StmtFlow(ctx, s.first, Merge(flow.success, flow.failure), ws);
      StmtGrows(ctx, s.first, Merge(flow.success, flow.failure), ws);
      ScriptGrows(ctx, s.rest, r.flow, r.warnings);
      GrowsTrans(ws, r.warnings, ScriptFlow(ctx, s, flow, ws).warnings, ctx.command);
    }
  }

  lemma {:induction false} CmdGrows(ctx: Context, c: Cmd, input: Facts, ws: seq<Warning>)
    ensures Grows(ws, CmdFlow(ctx, c, input, ws).warnings, ctx.command)
    decreases c, 1
  {
    match c
    case Nothing =>
    case Call(args, end, assigns) => CallGrows(Site(ctx.command, end, ctx.source), EffectOf(args), input, ws);
    case Block(body) => ScriptGrows(ctx, body, Flow(input, NOWHERE), ws);
    case Subshell(body) => ScriptGrows(ctx, body, Flow(input, NOWHERE), ws);
    case And(x, y) =>
      var r := StmtFlow(ctx, x, input, ws);
      StmtGrows(ctx, x, input, ws);
      StmtGrows(ctx, y, r.flow.success, r.warnings);
      GrowsTrans(ws, r.warnings, CmdFlow(ctx, c, input, ws).warnings, ctx.command);
    case Or(x, y) =>
      var r := StmtFlow(ctx, x, input, ws);
      StmtGrows(ctx, x, input, ws);
      StmtGrows(ctx, y, r.flow.failure, r.warnings);
      GrowsTrans(ws, r.warnings, CmdFlow(ctx, c, input, ws).warnings, ctx.command);
    case If(cond, body, otherwise) =>
      var r := ScriptFlow(ctx, cond, Flow(input, NOWHERE), ws);
      var q := ScriptFlow(ctx, body, Flow(r.flow.success, NOWHERE), r.warnings);
      ScriptGrows(ctx, cond, Flow(input, NOWHERE), ws);
      ScriptGrows(ctx, body, Flow(r.flow.success, NOWHERE), r.warnings);
      ElseGrows(ctx, otherwise, r.flow.failure, q.warnings);
      GrowsTrans(ws, r.warnings, q.warnings, ctx.command);
      GrowsTrans(ws, q.warnings, CmdFlow(ctx, c, input, ws).warnings, ctx.command);
  }

  lemma {:induction false} ElseGrows(ctx: Context, e: Else, input: Facts, ws: seq<Warning>)
    ensures Grows(ws, ElseFlow(ctx, e, input, ws).warnings, ctx.command)
    decreases e, 0
  {
    match e
    case NoElse =>
    case Else(body) => ScriptGrows(ctx, body, Flow(input, NOWHERE), ws);
    case Elif(clause) => CmdGrows(ctx, clause, input, ws);
  }

  lemma BlockGrows(p: Progress, i: nat, source: Source)
    ensures Grows(p.warnings, Advance(p, i, source).warnings, i)
  {
    if Analysable(p, i, source) {
      ScriptGrows(Context(i, source.text), source.script.value, Flow(p.facts, NOWHERE), p.warnings);
    }
  }

  /** Every warning is about a block that has been analysed. */
  lemma {:induction false} CommandsBelow(sources: seq<Source>)
    ensures forall c :: c in Commands(AdvanceAll(sources).warnings) ==> c < |sources|
    decreases |sources|
  {
    if sources != [] {
      var n := |sources| - 1;
      CommandsBelow(sources[..n]);
      BlockGrows(AdvanceAll(sources[..n]), n, sources[n]);
    }
  }

  /** A block that is warned about was warned about when it was analysed. */
  lemma {:induction false} WarnedThen(sources: seq<Source>, i: nat)
    requires i < |sources| && i in Commands(AdvanceAll(sources).warnings)
    ensures Advance(AdvanceAll(sources[..i]), i, sources[i]).warnings != AdvanceAll(sources[..i]).warnings
    decreases |sources|
  {
    var n := |sources| - 1;
    CommandsBelow(sources[..n]);
    if i < n {
      BlockGrows(AdvanceAll(sources[..n]), n, sources[n]);
      WarnedThen(sources[..n], i);
      assert sources[..n][..i] == sources[..i];
    }
  }

  // ----- bootstraps -----

  predicate GoesOnSources(sources: seq<Source>) {
    forall i :: 0 <= i < |sources| && sources[i].script.Some? ==> GoesOnScript(sources[i].script.value)
  }

  /** The analysis expects every block to be reached, and the end. */
  ghost predicate Expected(sources: seq<Source>) {
    forall k :: 0 <= k <= |sources| ==> AdvanceAll(sources[..k]).facts.reachable
  }

  lemma ExpectedFront(sources: seq<Source>, k: nat)
    requires Expected(sources) && k <= |sources|
    ensures Expected(sources[..k])
  {
    forall j | 0 <= j <= |sources[..k]| ensures AdvanceAll(sources[..k][..j]).facts.reachable {
      assert sources[..k][..j] == sources[..j];
    }
  }

  /** What a block that cannot be read does in the worst case. */
  function Removes(i: nat): (es: seq<Event>) {
    [Removed]
  }

  ghost predicate Quiet(unknown: nat -> seq<Event>) {
    forall i, k :: 0 <= k < |unknown(i)| ==> !unknown(i)[k].Used?
  }

  lemma BlockLater(b: Bootstrap, p: Progress, i: nat, source: Source, pick: nat -> bool, unknown: nat -> seq<Event>)
    ensures var r := RunBlock(b, p, i, source, pick, unknown); r.clock >= b.clock && b.trace <= r.trace
  {
    if b.alive && Analysable(p, i, source) {
      ScriptLater(Context(i, source.text), source.script.value, true, CALM, false, pick, b.clock, b.trace);
    }
  }

  lemma BlockLocal(b: Bootstrap, p: Progress, i: nat, source: Source, pick: nat -> bool, q: nat -> bool, unknown: nat -> seq<Event>)
    requires Same(pick, q, b.clock, RunBlock(b, p, i, source, pick, unknown).clock)
    ensures RunBlock(b, p, i, source, q, unknown) == RunBlock(b, p, i, source, pick, unknown)
  {
    if b.alive && Analysable(p, i, source) {
      ScriptLater(Context(i, source.text), source.script.value, true, CALM, false, pick, b.clock, b.trace);
      ScriptLocal(Context(i, source.text), source.script.value, true, CALM, false, pick, q, b.clock, b.trace);
    }
  }

  lemma {:induction false} BlocksLater(sources: seq<Source>, k: nat, pick: nat -> bool, unknown: nat -> seq<Event>)
    requires k <= |sources|
    ensures RunBlocks(sources[..k], pick, unknown).trace <= RunBlocks(sources, pick, unknown).trace
    decreases |sources|
  {
    if k < |sources| {
      var n := |sources| - 1;
      BlocksLater(sources[..n], k, pick, unknown);
      assert sources[..n][..k] == sources[..k];
      BlockLater(RunBlocks(sources[..n], pick, unknown), AdvanceAll(sources[..n]), n, sources[n], pick, unknown);
    } else {
      assert sources[..k] == sources;
    }
  }

  lemma {:induction false} BlocksLocal(sources: seq<Source>, p: nat -> bool, q: nat -> bool, unknown: nat -> seq<Event>)
    requires Same(p, q, 0, RunBlocks(sources, p, unknown).clock)
    ensures RunBlocks(sources, q, unknown) == RunBlocks(sources, p, unknown)
    decreases |sources|
  {
    if sources != [] {
      var n := |sources| - 1;
      var b := RunBlocks(sources[..n], p, unknown);
      BlockLater(b, AdvanceAll(sources[..n]), n, sources[n], p, unknown);
      BlocksLocal(sources[..n], p, q, unknown);
      BlockLocal(b, AdvanceAll(sources[..n]), n, sources[n], p, q, unknown);
    }
  }

  lemma BlockAttains(b: Bootstrap, p: Progress, i: nat, source: Source) returns (pick: nat -> bool)
    requires b.alive && Present(b.trace) == p.facts.installed && Advance(p, i, source).facts.reachable
    requires (source.script.Some? ==> GoesOnScript(source.script.value)) && (p.stopped ==> p.facts == ANYTHING)
    ensures var r := RunBlock(b, p, i, source, pick, Removes); r.alive && Present(r.trace) == Advance(p, i, source).facts.installed
  {
    if Analysable(p, i, source) {
      var ctx, script := Context(i, source.text), source.script.value;
      var q := BodyAttains(ctx, script, p.facts, p.warnings, true, CALM, false, b.clock, b.trace);
      var x := RunScript(ctx, script, true, CALM, false, q, b.clock, b.trace);
      pick := Splice(q, (n: nat) => true, x.clock);
      ScriptLocal(ctx, script, true, CALM, false, q, pick, b.clock, b.trace);
    } else {
      pick := (n: nat) => true;
      FactsSnoc(ANYTHING, b.trace, Removed);
    }
  }

  /** Some bootstrap completes with curl exactly as claimed. */
  lemma {:induction false} BlocksAttain(sources: seq<Source>) returns (pick: nat -> bool)
    requires GoesOnSources(sources) && Expected(sources)
    ensures var b := RunBlocks(sources, pick, Removes); b.alive && Present(b.trace) == AdvanceAll(sources).facts.installed
    decreases |sources|
  {
    if sources == [] {
      pick := (n: nat) => false;
    } else {
      var n := |sources| - 1;
      ExpectedFront(sources, n);
      assert sources[..|sources|] == sources;
      StoppedKnowsNothing(sources[..n]);
      var p := BlocksAttain(sources[..n]);
      var b := RunBlocks(sources[..n], p, Removes);
      var q := BlockAttains(b, AdvanceAll(sources[..n]), n, sources[n]);
      pick := Splice(p, q, b.clock);
      BlocksLocal(sources[..n], p, pick, Removes);
      BlockLocal(b, AdvanceAll(sources[..n]), n, sources[n], q, pick, Removes);
    }
  }

  /** A block that is warned about uses curl without an install in some execution. */
  lemma BlockWarns(sources: seq<Source>, i: nat) returns (pick: nat -> bool)
    requires i < |sources| && GoesOnSources(sources) && Expected(sources[..i])
    requires Advance(AdvanceAll(sources[..i]), i, sources[i]).warnings != AdvanceAll(sources[..i]).warnings
    ensures Bare(RunBlocks(sources, pick, Removes).trace, 0, i)
  {
    var p := BlocksAttain(sources[..i]);
    var b, a := RunBlocks(sources[..i], p, Removes), AdvanceAll(sources[..i]);
    var ctx, script := Context(i, sources[i].text), sources[i].script.value;
    var q := BodyWarns(ctx, script, a.facts, a.warnings, CALM, false, b.clock, b.trace);
    pick := Splice(p, q, b.clock);
    BlocksLocal(sources[..i], p, pick, Removes);
    ScriptLocal(ctx, script, true, CALM, false, q, pick, b.clock, b.trace);
    var more := sources[..i + 1];
    assert more[..i] == sources[..i] && more[i] == sources[i];
    BlocksLater(sources, i + 1, pick, Removes);
    BareStays(RunBlocks(more, pick, Removes).trace, RunBlocks(sources, pick, Removes).trace, |b.trace|, 0, i);
  }

  lemma {:induction false} CoveredAt(ws: seq<Warning>, trace: seq<Event>, i: nat)
    requires Covered(ws, trace) && i < |trace| && trace[i].Used? && !Present(trace[..i])
    ensures trace[i].command in Commands(ws)
    decreases |trace|
  {
    var n := |trace| - 1;
    if i < n {
      assert trace[..n][..i] == trace[..i];
      CoveredAt(ws, trace[..n], i);
    }
  }

  /** In this execution, block i uses curl without an install in force. */
  ghost predicate UsesBare(sources: seq<Source>, i: nat, pick: nat -> bool, unknown: nat -> seq<Event>) {
    Quiet(unknown) && Bare(RunBlocks(sources, pick, unknown).trace, 0, i)
  }

  lemma BareIsWarned(sources: seq<Source>, i: nat, pick: nat -> bool, unknown: nat -> seq<Event>)
    requires SoberSources(sources) && UsesBare(sources, i, pick, unknown)
    ensures i in Commands(AdvanceAll(sources).warnings)
  {
    ReportSound(sources, pick, unknown);
    var trace := RunBlocks(sources, pick, unknown).trace;
    var k :| 0 <= k < |trace| && trace[k] == Used(i) && !Present(trace[..k]);
    CoveredAt(AdvanceAll(sources).warnings, trace, k);
  }

  lemma WarnedIsBare(sources: seq<Source>, i: nat) returns (pick: nat -> bool, unknown: nat -> seq<Event>)
    requires GoesOnSources(sources) && i < |sources| && Expected(sources[..i]) && i in Commands(AdvanceAll(sources).warnings)
    ensures UsesBare(sources, i, pick, unknown)
  {
    WarnedThen(sources, i);
    pick := BlockWarns(sources, i);
    unknown := Removes;
  }

  /** A block is warned about if and only if some execution uses curl there without an install in force. */
  lemma {:induction false} WarnedIff(sources: seq<Source>, i: nat)
    requires SoberSources(sources) && GoesOnSources(sources) && i < |sources| && Expected(sources[..i])
    ensures i in Commands(AdvanceAll(sources).warnings) <==>
            exists pick: nat -> bool, unknown: nat -> seq<Event> :: UsesBare(sources, i, pick, unknown)
  {
    if i in Commands(AdvanceAll(sources).warnings) {
      var pick, unknown := WarnedIsBare(sources, i);
    } else if exists pick: nat -> bool, unknown: nat -> seq<Event> :: UsesBare(sources, i, pick, unknown) {
      var pick: nat -> bool, unknown: nat -> seq<Event> :| UsesBare(sources, i, pick, unknown);
      BareIsWarned(sources, i, pick, unknown);
    }
  }

  /** If this bootstrap completes, it has curl. */
  ghost predicate CompletesWithCurl(sources: seq<Source>, pick: nat -> bool, unknown: nat -> seq<Event>) {
    var b := RunBlocks(sources, pick, unknown);
    Quiet(unknown) && b.alive ==> Present(b.trace)
  }

  /** The report claims curl if and only if every completed bootstrap has it. */
  lemma {:induction false} InstalledIff(sources: seq<Source>)
    requires SoberSources(sources) && GoesOnSources(sources) && Expected(sources)
    ensures AdvanceAll(sources).facts.installed <==>
            forall pick: nat -> bool, unknown: nat -> seq<Event> :: CompletesWithCurl(sources, pick, unknown)
  {
    if AdvanceAll(sources).facts.installed {
      forall pick: nat -> bool, unknown: nat -> seq<Event> ensures CompletesWithCurl(sources, pick, unknown) {
        if Quiet(unknown) {
          ReportSound(sources, pick, unknown);
        }
      }
    } else {
      var pick := BlocksAttain(sources);
      assert sources[..|sources|] == sources;
      assert !CompletesWithCurl(sources, pick, Removes);
    }
  }
}
