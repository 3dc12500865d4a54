/** The curl dependency analysis: must-facts flowing through success and failure. */
module DependencyAnalysis {
  import opened Wrappers
  import opened ShellSyntax

  /** A place where `curl` could be added: the end of another package install. */
  datatype Site = Site(command: nat, offset: nat, source: string)

  datatype Facts = Facts(reachable: bool, installed: bool, fix: Option<Site>)
  datatype Flow = Flow(success: Facts, failure: Facts)
  datatype Warning = Warning(command: nat, fix: Option<Site>)

  /** The command block being analysed. */
  datatype Context = Context(command: nat, source: string)

  datatype Analysis = Analysis(flow: Flow, warnings: seq<Warning>)

  const NOWHERE := Facts(false, false, None)
  const ANYTHING := Facts(true, false, None)

  // ----- what a simple command is, literally -----

  datatype Effect = Plain | Succeeds | Fails | UsesCurl | InstallsCurl | RemovesCurl | InstallsOther

  function Texts(args: seq<Word>): (r: seq<string>) {
    seq(|args|, i requires 0 <= i < |args| => Text(args[i]))
  }

  predicate AllLiteral(args: seq<Word>) {
    forall i :: 0 <= i < |args| ==> args[i].Literal?
  }

  predicate CurlPackage(p: string) {
    p == "curl" || p == "curl+" || "curl=" <= p
  }

  function TargetOf(args: seq<Word>): (t: Target) {
    Stripped(Texts(args), false, false)
  }

  function AptEffect(apt: Apt): (e: Effect) {
    var curl := exists p :: p in apt.packages && CurlPackage(p);
    if (apt.action != "install" && curl) || "curl-" in apt.packages then RemovesCurl
    else if apt.action != "install" then Plain
    else if curl then InstallsCurl else InstallsOther
  }

  function EffectOf(args: seq<Word>): (e: Effect) {
    var words := TargetOf(args).args;
    if |words| == 0 then Plain
    else if words[0] == "true" || words[0] == ":" then Succeeds
    else if words[0] == "false" then Fails
    else if words[0] == "curl" || words[0] == "/usr/bin/curl" || words[0] == "/bin/curl" then UsesCurl
    else if !AllLiteral(args) then Plain
    else
      var apt := LiteralApt(words);
      if apt.Some? then AptEffect(apt.value) else Plain
  }

  // ----- the lattice -----

  function Merge(a: Facts, b: Facts): (r: Facts) {
    if !a.reachable then b
    else if !b.reachable then a
    else Facts(true, a.installed && b.installed, if a.fix.Some? && a.fix == b.fix then a.fix else None)
  }

  function MergeFlows(a: Flow, b: Flow): (r: Flow) {
    Flow(Merge(a.success, b.success), Merge(a.failure, b.failure))
  }

  // ----- warnings: one per command block, with a fix only if all its uses agree -----

  function Warned(ws: seq<Warning>, command: nat, fix: Option<Site>): (r: seq<Warning>) {
    if ws == [] then [Warning(command, fix)]
    else if ws[0].command != command then [ws[0]] + Warned(ws[1..], command, fix)
    else if ws[0].fix.Some? && ws[0].fix != fix then [ws[0].(fix := None)] + ws[1..]
    else ws
  }

  /** The report's mutable warning list. */
  class Report {
    var warnings: seq<Warning>

    constructor ()
      ensures warnings == []
    {
      warnings := [];
    }

    method Warn(command: nat, fix: Option<Site>)
      modifies this
      ensures warnings == old(Warned(warnings, command, fix))
    {
      ghost var was := warnings;
      for i := 0 to |warnings|
        invariant warnings == was
        invariant forall j :: 0 <= j < i ==> was[j].command != command
      {
        var warning := warnings[i];
        if warning.command == command {
          WarnsAt(was, i, command, fix);
          if warning.fix.Some? && (fix.None? || warning.fix != fix) {
            warnings := warnings[i := warning.(fix := None)];
          }
          return;
        }
      }
      WarnsNew(was, command, fix);
      warnings := warnings + [Warning(command, fix)];
    }
  }

  /** The first warning of a block already warned about keeps its fix only if the new use has the same. */
  lemma {:induction false} WarnsAt(ws: seq<Warning>, i: nat, command: nat, fix: Option<Site>)
    requires i < |ws| && ws[i].command == command && forall j :: 0 <= j < i ==> ws[j].command != command
    ensures Warned(ws, command, fix) == if ws[i].fix.Some? && ws[i].fix != fix then ws[i := ws[i].(fix := None)] else ws
  {
    if i > 0 {
      WarnsAt(ws[1..], i - 1, command, fix);
      assert ws == [ws[0]] + ws[1..];
    }
  }

  lemma {:induction false} WarnsNew(ws: seq<Warning>, command: nat, fix: Option<Site>)
    requires forall j :: 0 <= j < |ws| ==> ws[j].command != command
    ensures Warned(ws, command, fix) == ws + [Warning(command, fix)]
  {
    if ws != [] {
      WarnsNew(ws[1..], command, fix);
      assert ws == [ws[0]] + ws[1..];
    }
  }

  // ----- the flow functions -----

  function CallFlow(site: Site, e: Effect, input: Facts, ws: seq<Warning>): (r: Analysis) {
    match e
    case Plain => Analysis(Flow(input, input), ws)
    case Succeeds => Analysis(Flow(input, NOWHERE), ws)
    case Fails => Analysis(Flow(NOWHERE, input), ws)
    case UsesCurl =>
      Analysis(Flow(input, input), if input.installed then ws else Warned(ws, site.command, input.fix))
    case InstallsCurl => Analysis(Flow(input.(installed := true), input), ws)
    case RemovesCurl => Analysis(Flow(input.(installed := false, fix := None), input), ws)
    case InstallsOther =>
      Analysis(Flow(input.(fix := Some(site)), input.(fix := Some(site))), ws)
  }

  function StmtFlow(ctx: Context, s: Stmt, input: Facts, ws: seq<Warning>): (r: Analysis)
    decreases s
  {
    if !input.reachable then Analysis(Flow(NOWHERE, NOWHERE), ws)
    else
      var r := CmdFlow(ctx, s.cmd, input, ws);
      if s.negated then Analysis(Flow(r.flow.failure, r.flow.success), r.warnings) else r
  }

  function ScriptFlow(ctx: Context, s: Script, flow: Flow, ws: seq<Warning>): (r: Analysis)
    decreases s
  {
    match s
    case End => Analysis(flow, ws)
    case Then(first, rest) =>
      var r := StmtFlow(ctx, first, Merge(flow.success, flow.failure), ws);
      ScriptFlow(ctx, rest, r.flow, r.warnings)
  }

  function CmdFlow(ctx: Context, c: Cmd, input: Facts, ws: seq<Warning>): (r: Analysis)
    decreases c
  {
    match c
    case Nothing => Analysis(Flow(input, NOWHERE), ws)
    case Call(args, end, _) => CallFlow(Site(ctx.command, end, ctx.source), EffectOf(args), input, ws)
    case Block(body) => ScriptFlow(ctx, body, Flow(input, NOWHERE), ws)
    case Subshell(body) => ScriptFlow(ctx, body, Flow(input, NOWHERE), ws)
    case And(x, y) =>
      var left := StmtFlow(ctx, x, input, ws);
      var right := StmtFlow(ctx, y, left.flow.success, left.warnings);
      Analysis(Flow(right.flow.success, Merge(left.flow.failure, right.flow.failure)), right.warnings)
    case Or(x, y) =>
      var left := StmtFlow(ctx, x, input, ws);
      var right := StmtFlow(ctx, y, left.flow.failure, left.warnings);
      Analysis(Flow(Merge(left.flow.success, right.flow.success), right.flow.failure), right.warnings)
    case If(cond, body, otherwise) =>
      var condition := ScriptFlow(ctx, cond, Flow(input, NOWHERE), ws);
      var then_ := ScriptFlow(ctx, body, Flow(condition.flow.success, NOWHERE), condition.warnings);
      var else_ := ElseFlow(ctx, otherwise, condition.flow.failure, then_.warnings);
      Analysis(MergeFlows(then_.flow, else_.flow), else_.warnings)
  }

  function ElseFlow(ctx: Context, e: Else, input: Facts, ws: seq<Warning>): (r: Analysis)
    decreases e
  {
    match e
    case NoElse => Analysis(Flow(input, NOWHERE), ws)
    case Else(body) => ScriptFlow(ctx, body, Flow(input, NOWHERE), ws)
    case Elif(clause) => CmdFlow(ctx, clause, input, ws)
  }

  // ----- whole reports -----

  const MAX_COMMANDS: nat := 256
  const MAX_SOURCE: nat := 0x1_0000
  const MAX_TOTAL: nat := 0x4_0000

  /** One saved command block; `script` is what the parser made of it. */
  datatype Source = Source(text: string, script: Option<Script>)

  datatype Verdict = Verdict(warnings: seq<Warning>, unavailable: seq<nat>, installed: bool)

  datatype Progress = Progress(facts: Facts, warnings: seq<Warning>, unavailable: seq<nat>, remaining: nat, stopped: bool)

  predicate Analysable(p: Progress, i: nat, source: Source) {
    !p.stopped && i < MAX_COMMANDS && |source.text| <= p.remaining && |source.text| <= MAX_SOURCE && source.script.Some?
  }

  function Advance(p: Progress, i: nat, source: Source): (r: Progress) {
    if p.stopped then p
    else if i >= MAX_COMMANDS || |source.text| > p.remaining then
      p.(unavailable := p.unavailable + [i], facts := ANYTHING, stopped := true)
    else if |source.text| > MAX_SOURCE then p.(unavailable := p.unavailable + [i], facts := ANYTHING)
    else if source.script.None? then
      p.(unavailable := p.unavailable + [i], facts := ANYTHING, remaining := p.remaining - |source.text|)
    else
      var r := ScriptFlow(Context(i, source.text), source.script.value, Flow(p.facts, NOWHERE), p.warnings);
      p.(facts := r.flow.success, warnings := r.warnings, remaining := p.remaining - |source.text|)
  }

  function AdvanceAll(sources: seq<Source>): (r: Progress) {
    if sources == [] then Progress(ANYTHING, [], [], MAX_TOTAL, false)
    else Advance(AdvanceAll(sources[..|sources| - 1]), |sources| - 1, sources[|sources| - 1])
  }

  lemma {:induction false} StoppedStays(sources: seq<Source>, k: nat)
    requires k <= |sources| && AdvanceAll(sources[..k]).stopped
    ensures AdvanceAll(sources) == AdvanceAll(sources[..k])
    decreases |sources|
  {
    if k < |sources| {
      assert sources[..|sources| - 1][..k] == sources[..k];
      StoppedStays(sources[..|sources| - 1], k);
    } else {
      assert sources[..k] == sources;
    }
  }

  method Analyze(sources: seq<Source>) returns (v: Verdict)
    ensures var p := AdvanceAll(sources);
            v == Verdict(p.warnings, p.unavailable, p.facts.reachable && p.facts.installed)
  {
    var facts := ANYTHING;
    var warnings: seq<Warning> := [];
    var unavailable: seq<nat> := [];
    var remaining: nat := MAX_TOTAL;
    var i := 0;
    while i < |sources|
      invariant 0 <= i <= |sources|
      invariant AdvanceAll(sources[..i]) == Progress(facts, warnings, unavailable, remaining, false)
    {
      var source := sources[i];
      assert sources[..i + 1][..i] == sources[..i];
      if i >= MAX_COMMANDS || |source.text| > remaining {
        unavailable := unavailable + [i];
        facts := ANYTHING;
        StoppedStays(sources, i + 1);
        return Verdict(warnings, unavailable, facts.reachable && facts.installed);
      }
      if |source.text| > MAX_SOURCE {
        unavailable := unavailable + [i];
        facts := ANYTHING;
      } else {
        remaining := remaining - |source.text|;
        if source.script.None? {
          unavailable := unavailable + [i];
          facts := ANYTHING;
        } else {
          var r := ScriptFlow(Context(i, source.text), source.script.value, Flow(facts, NOWHERE), warnings);
          facts, warnings := r.flow.success, r.warnings;
        }
      }
      i := i + 1;
    }
    assert sources[..i] == sources;
    return Verdict(warnings, unavailable, facts.reachable && facts.installed);
  }

  // ----- which blocks are looked at -----

  /** The bytes charged: those of the blocks that are not too long by themselves. */
  function Charged(sources: seq<Source>): (n: nat) {
    if sources == [] then 0
    else
      var text := sources[|sources| - 1].text;
      Charged(sources[..|sources| - 1]) + if |text| <= 65536 then |text| else 0
  }

  /** The block is the 257th or does not fit what is left of 262144 bytes. */
  predicate Exhausts(sources: seq<Source>, i: nat)
    requires i < |sources|
  {
    i >= 256 || Charged(sources[..i]) + |sources[i].text| > 262144
  }

  ghost predicate Exhausted(sources: seq<Source>, n: nat)
    requires n <= |sources|
  {
    exists j :: 0 <= j < n && Exhausts(sources, j)
  }

  lemma ExhaustedSnoc(sources: seq<Source>, n: nat, m: nat)
    requires m <= n <= |sources|
    ensures Exhausted(sources[..n], m) == Exhausted(sources, m)
    ensures n < |sources| ==> Exhausted(sources, n + 1) == (Exhausted(sources, n) || Exhausts(sources, n))
  {
    assert forall j :: 0 <= j < n ==> sources[..n][..j] == sources[..j];
    assert forall j :: 0 <= j < n ==> Exhausts(sources[..n], j) == Exhausts(sources, j);
  }

  lemma {:induction false} StoppedIff(sources: seq<Source>)
    ensures AdvanceAll(sources).stopped <==> Exhausted(sources, |sources|)
    ensures !AdvanceAll(sources).stopped ==> AdvanceAll(sources).remaining + Charged(sources) == 262144
    decreases |sources|
  {
    if sources != [] {
      var n := |sources| - 1;
      StoppedIff(sources[..n]);
      ExhaustedSnoc(sources, n, n);
    }
  }

  /** A block is analysed if and only if no block up to it exhausted the limits, it has at most 65536 bytes and it parses. */
  lemma AnalysableIff(sources: seq<Source>, i: nat)
    requires i < |sources|
    ensures Analysable(AdvanceAll(sources[..i]), i, sources[i]) <==>
            !Exhausted(sources, i + 1) && |sources[i].text| <= 65536 && sources[i].script.Some?
  {
    StoppedIff(sources[..i]);
    ExhaustedSnoc(sources, i, i);
  }

  /**
    The report names as unavailable exactly the first block that exhausts the limits and, before
    it, those that are too long or do not parse; what follows it is not mentioned.
    */
  lemma {:induction false} UnavailableIff(sources: seq<Source>, i: nat)
    ensures i in AdvanceAll(sources).unavailable <==>
            && i < |sources| && !Exhausted(sources, i)
            && (Exhausts(sources, i) || |sources[i].text| > 65536 || sources[i].script.None?)
    decreases |sources|
  {
    if sources != [] {
      var n := |sources| - 1;
      UnavailableIff(sources[..n], i);
      StoppedIff(sources[..n]);
      ExhaustedSnoc(sources, n, if i <= n then i else n);
      if i < n {
        assert sources[..n][..i] == sources[..i];
      }
    }
  }
}
