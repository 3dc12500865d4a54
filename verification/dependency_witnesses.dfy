/** Literal scripts on which the dependency analysis is right, and some on which it is wrong. */
module DependencyWitnesses {
  import opened Wrappers
  import opened ShellSyntax
  import opened DependencyAnalysis
  import opened CommandMeaning
  import opened ShellExecution
  import opened DependencyReference
  import opened DependencySoundness
  import opened DependencyLimits
  import opened DependencyGuarantees

  // ----- a few literal commands -----

  const ORDINARY := Manner(false, false, false, false, false, false, false)

  const TRUE := [Literal("true")]
  const CURL := [Literal("curl")]
  const EXEC_TRUE := [Literal("exec"), Literal("true")]
  const EXIT_1 := [Literal("exit"), Literal("1")]
  const SUDO_TRUE := [Literal("sudo"), Literal("true")]
  const SET_E := [Literal("set"), Literal("-e")]
  const EVAL_X := [Literal("eval"), Literal("x")]
  const UPDATE := [Literal("apt-get"), Literal("update")]

  function Install(package: string): (args: seq<Word>) {
    [Literal("apt-get"), Literal("install"), Literal("-y"), Literal(package)]
  }

  function Plainly(c: Cmd): (s: Stmt) {
    Stmt(c, false, NoRedirect)
  }

  /** Words that differ in a letter. */
  lemma Different(a: string, b: string, i: nat)
    requires i < |a| && i < |b| && a[i] != b[i]
    ensures a != b
  {
  }

  predicate Prefix(w: string) {
    w == "command" || w == "exec" || w == "sudo"
  }

  /** A literal command without a prefix is its own target. */
  lemma OwnTarget(args: seq<Word>)
    requires |args| > 0 && args[0].Literal? && !Prefix(args[0].text)
    ensures TargetOf(args) == Target(Texts(args), false, false, false)
  {
    assert Texts(args)[0] == args[0].text;
  }

  /** What a name that means something to the shell can be. */
  predicate Meaningful(w: string) {
    Prefix(w) || SpecialName(w) || UnseenName(w) || w == ""
  }

  lemma OrdinaryManner(args: seq<Word>)
    requires |args| > 0 && AllLiteral(args) && !Meaningful(args[0].text)
    ensures MannerOf(args, false) == ORDINARY
  {
    OwnTarget(args);
    assert Texts(args)[0] == args[0].text;
  }

  lemma TrueCall()
    ensures EffectOf(TRUE) == Succeeds && MannerOf(TRUE, false) == ORDINARY
    ensures Deed(TRUE) == EffectOf(TRUE)
  {
    EffectIsDeed(TRUE);
    Different("true", "exec", 0);
    Different("true", "sudo", 0);
    Different("true", "exit", 0);
    Different("true", "eval", 0);
    Different("true", "trap", 2);
    assert !Meaningful("true");
    OrdinaryManner(TRUE);
    OwnTarget(TRUE);
    assert Texts(TRUE) == ["true"];
  }

  lemma BehindPrefix(handsOver: bool, elevated: bool)
    ensures Stripped(["true"], handsOver, elevated) == Target(["true"], handsOver, elevated, false)
  {
    Different("true", "exec", 0);
    Different("true", "sudo", 0);
  }

  lemma SudoTrueCall()
    ensures EffectOf(SUDO_TRUE) == Succeeds && MannerOf(SUDO_TRUE, false) == ORDINARY.(elevated := true)
    ensures Deed(SUDO_TRUE) == EffectOf(SUDO_TRUE)
  {
    EffectIsDeed(SUDO_TRUE);
    assert Texts(SUDO_TRUE) == ["sudo", "true"] && Texts(SUDO_TRUE)[1..] == ["true"];
    Different("sudo", "exec", 0);
    BehindPrefix(false, true);
    assert TargetOf(SUDO_TRUE) == Target(["true"], false, true, false);
    Different("sudo", "exit", 0);
    Different("sudo", "eval", 0);
    Different("sudo", "trap", 0);
    assert !SpecialName("sudo");
  }

  lemma ExecTrueCall()
    ensures EffectOf(EXEC_TRUE) == Succeeds
    ensures MannerOf(EXEC_TRUE, false) == ORDINARY.(leaves := true, brittle := true, special := true)
    ensures Deed(EXEC_TRUE) == EffectOf(EXEC_TRUE)
  {
    EffectIsDeed(EXEC_TRUE);
    assert Texts(EXEC_TRUE) == ["exec", "true"] && Texts(EXEC_TRUE)[1..] == ["true"];
    BehindPrefix(true, false);
    assert TargetOf(EXEC_TRUE) == Target(["true"], true, false, false);
    Different("exec", ":", 0);
  }

  lemma CurlCall()
    ensures EffectOf(CURL) == UsesCurl && MannerOf(CURL, false) == ORDINARY
    ensures Deed(CURL) == EffectOf(CURL)
  {
    EffectIsDeed(CURL);
    Different("curl", "true", 0);
    Different("curl", "exec", 0);
    Different("curl", "sudo", 0);
    Different("curl", "exit", 0);
    Different("curl", "eval", 0);
    Different("curl", "trap", 0);
    assert !Meaningful("curl");
    OrdinaryManner(CURL);
    OwnTarget(CURL);
    assert Texts(CURL) == ["curl"];
  }

  /** A name the analysis does not know. */
  predicate Unknown(w: string) {
    && w != "true" && w != ":" && w != "false" && w != "curl" && w != "/usr/bin/curl" && w != "/bin/curl"
    && w != "apt" && w != "apt-get"
  }

  lemma PlainEffect(args: seq<Word>)
    requires |args| > 0 && AllLiteral(args) && !Prefix(args[0].text) && (Unknown(args[0].text) || (|args| < 3 && args[0].text == "apt-get"))
    ensures EffectOf(args) == Plain
  {
    OwnTarget(args);
    assert Texts(args)[0] == args[0].text;
    Different("apt-get", "true", 0);
    Different("apt-get", "curl", 0);
  }

  lemma ExitCall()
    ensures EffectOf(EXIT_1) == Plain
    ensures MannerOf(EXIT_1, false) == ORDINARY.(leaves := true, failing := true, brittle := true, special := true)
    ensures Deed(EXIT_1) == EffectOf(EXIT_1)
  {
    EffectIsDeed(EXIT_1);
    Different("exit", "exec", 2);
    Different("exit", "sudo", 0);
    Different("exit", "true", 0);
    Different("exit", "curl", 0);
    PlainEffect(EXIT_1);
    OwnTarget(EXIT_1);
    assert Texts(EXIT_1) == ["exit", "1"] && NonzeroStatus("1");
    Different("exit", "eval", 1);
    Different("exit", "trap", 0);
  }

  lemma SetCall()
    ensures EffectOf(SET_E) == Plain && SetsOptions(Plainly(Call(SET_E, 6, false)))
    ensures MannerOf(SET_E, false) == ORDINARY.(brittle := true, special := true, sets := true)
    ensures Deed(SET_E) == EffectOf(SET_E)
  {
    EffectIsDeed(SET_E);
    PlainEffect(SET_E);
    OwnTarget(SET_E);
    assert Texts(SET_E) == ["set", "-e"];
    assert OrdinarySet(SET_E);
  }

  lemma EvalCall()
    ensures EffectOf(EVAL_X) == Plain
    ensures MannerOf(EVAL_X, false) == ORDINARY.(unseen := true, brittle := true, special := true)
    ensures Deed(EVAL_X) == EffectOf(EVAL_X)
  {
    EffectIsDeed(EVAL_X);
    Different("eval", "exec", 1);
    Different("eval", "sudo", 0);
    Different("eval", "true", 0);
    Different("eval", "curl", 0);
    Different("eval", "exit", 1);
    PlainEffect(EVAL_X);
    OwnTarget(EVAL_X);
    assert Texts(EVAL_X) == ["eval", "x"];
  }

  lemma AptManner(args: seq<Word>)
    requires |args| > 0 && AllLiteral(args) && args[0].text == "apt-get"
    ensures MannerOf(args, false) == ORDINARY
  {
    Different("apt-get", "command", 0);
    assert !Meaningful("apt-get");
    OrdinaryManner(args);
  }

  lemma UpdateCall()
    ensures EffectOf(UPDATE) == Plain && MannerOf(UPDATE, false) == ORDINARY
    ensures Deed(UPDATE) == EffectOf(UPDATE)
  {
    EffectIsDeed(UPDATE);
    AptManner(UPDATE);
    Different("apt-get", "command", 0);
    PlainEffect(UPDATE);
  }

  lemma FirstWords()
    ensures Understood(["install", "-y"]) && Positional(["install", "-y"]) == ["install"]
  {
    OneMoreWord([], "install");
    assert [] + ["install"] == ["install"];
    OneMoreWord(["install"], "-y");
    assert ["install"] + ["-y"] == ["install", "-y"];
  }

  lemma AllWords(package: string)
    requires package != "" && !Dashed(package)
    ensures Understood(["install", "-y", package]) && Positional(["install", "-y", package]) == ["install", package]
  {
    FirstWords();
    OneMoreWord(["install", "-y"], package);
    assert ["install", "-y"] + [package] == ["install", "-y", package];
  }

  lemma InstallWords(package: string)
    requires package != "" && !Dashed(package)
    ensures LiteralApt(["apt-get", "install", "-y", package]) == Some(Apt("install", [package]))
  {
    AllWords(package);
    assert ["apt-get", "install", "-y", package][1..] == ["install", "-y", package];
    assert ["install", package][1..] == [package];
  }

  lemma InstallCall(package: string)
    requires package != "" && !Dashed(package) && package != "curl-"
    ensures MannerOf(Install(package), false) == ORDINARY
    ensures EffectOf(Install(package)) == if CurlPackage(package) then InstallsCurl else InstallsOther
    ensures Deed(Install(package)) == EffectOf(Install(package))
  {
    EffectIsDeed(Install(package));
    var args := Install(package);
    AptManner(args);
    Different("apt-get", "command", 0);
    OwnTarget(args);
    assert Texts(args) == ["apt-get", "install", "-y", package];
    InstallWords(package);
    Different("apt-get", "true", 0);
    Different("apt-get", "curl", 0);
    var apt := Apt("install", [package]);
    assert package in apt.packages;
    assert (exists p :: p in apt.packages && CurlPackage(p)) <==> CurlPackage(package);
  }

  // ----- within the theorem -----

  /** The guard `command || exit 1` is within the theorem whenever the command is, and claims nothing that is not backed. */
  lemma OrExitIsRight(ctx: Context, x: Stmt, end: nat, input: Facts, ws: seq<Warning>, known: Facts, mode: Mode, tested: bool)
    requires RightStmt(ctx, x, input, ws, known, mode, true)
    ensures RightCmd(ctx, Or(x, Plainly(Call(EXIT_1, end, false))), input, ws, known, mode, tested)
    ensures var c := Or(x, Plainly(Call(EXIT_1, end, false)));
            var a, k := KnownStmt(ctx, x, known, mode, true), KnownCmd(ctx, c, known, mode, tested);
            var r, q := StmtFlow(ctx, x, input, ws).flow, CmdFlow(ctx, c, input, ws).flow;
            && (Backs(a.flow.success, r.success) ==> Backs(k.flow.success, q.success))
            && (!a.mode.trapped && k.left.success.reachable ==> k.left.success == a.left.success)
  {
    ExitCall();
    var a, r := KnownStmt(ctx, x, known, mode, true), StmtFlow(ctx, x, input, ws);
    var s := Plainly(Call(EXIT_1, end, false));
    ExitKnows(ctx, end, a.flow.failure, a.mode, tested);
    assert KnownCmd(ctx, Or(x, s), known, mode, tested) == OrReach(a, KnownStmt(ctx, s, a.flow.failure, a.mode, tested));
    assert RightStmt(ctx, s, r.flow.failure, r.warnings, a.flow.failure, a.mode, tested);
    MergeWeakens(a.flow.success, r.flow.success, StmtFlow(ctx, s, r.flow.failure, r.warnings).flow.success);
  }

  lemma MergeWeakens(known: Facts, a: Facts, b: Facts)
    ensures Backs(known, a) ==> Backs(Merge(known, NOWHERE), Merge(a, b))
  {
  }

  lemma ExitKnows(ctx: Context, end: nat, known: Facts, mode: Mode, tested: bool)
    ensures var k := KnownStmt(ctx, Plainly(Call(EXIT_1, end, false)), known, mode, tested);
            k.flow == NOFLOW && (!mode.trapped ==> k.left.success == NOWHERE)
  {
    ExitCall();
    var m := ORDINARY.(leaves := true, failing := true, brittle := true, special := true);
    var site := Site(ctx.command, end, ctx.source);
    assert KnownCmd(ctx, Call(EXIT_1, end, false), known, mode, tested) == KnownCall(site, Plain, m, known, mode, tested);
  }

  function UpdateThenInstall(): (s: Script) {
    Then(Plainly(Call(UPDATE, 20, false)), Then(Plainly(Call(Install("curl"), 40, false)), End))
  }

  lemma UpdateThenInstallIsRight(ctx: Context)
    ensures var s := UpdateThenInstall();
            && ScriptFlow(ctx, s, Flow(ANYTHING, NOWHERE), []).flow.success == ANYTHING.(installed := true)
            && RightScript(ctx, s, Flow(ANYTHING, NOWHERE), [], Flow(ANYTHING, NOWHERE), CALM, false)
            && KnownStatus(KnownScript(ctx, s, Flow(ANYTHING, NOWHERE), CALM, false)).success == ANYTHING.(installed := true)
            && !KnownScript(ctx, s, Flow(ANYTHING, NOWHERE), CALM, false).mode.trapped
  {
    UpdateCall();
    InstallCall("curl");
    var update, install := Plainly(Call(UPDATE, 20, false)), Plainly(Call(Install("curl"), 40, false));
    var any := Flow(ANYTHING, ANYTHING);
    assert StmtFlow(ctx, update, ANYTHING, []) == Analysis(any, []);
    assert KnownStmt(ctx, update, ANYTHING, CALM, false) == Reach(any, NOFLOW, CALM);
    var done := Flow(ANYTHING.(installed := true), ANYTHING);
    assert StmtFlow(ctx, install, ANYTHING, []) == Analysis(done, []);
    assert KnownStmt(ctx, install, ANYTHING, CALM, false) == Reach(done, NOFLOW, CALM);
    assert ScriptFlow(ctx, Then(install, End), any, []) == Analysis(done, []);
    assert KnownScript(ctx, Then(install, End), any, CALM, false) == Reach(done, NOFLOW, CALM);
    assert RightScript(ctx, Then(install, End), any, [], any, CALM, false);
  }

  /** `set -e; apt-get update; apt-get install -y curl`: the claim that curl is installed is right about every execution. */
  lemma StrictInstallIsRight(ctx: Context)
    ensures var s := Then(Plainly(Call(SET_E, 6, false)), UpdateThenInstall());
            && ScriptFlow(ctx, s, Flow(ANYTHING, NOWHERE), []).flow.success == ANYTHING.(installed := true)
            && RightScript(ctx, s, Flow(ANYTHING, NOWHERE), [], Flow(ANYTHING, NOWHERE), CALM, false)
            && Backs(KnownStatus(KnownScript(ctx, s, Flow(ANYTHING, NOWHERE), CALM, false)).success, ANYTHING.(installed := true))
  {
    SetCall();
    UpdateThenInstallIsRight(ctx);
    OptionsAreHarmless(ctx, Plainly(Call(SET_E, 6, false)), UpdateThenInstall(), ANYTHING, [], ANYTHING);
  }

  lemma CallIsSober(args: seq<Word>, end: nat, at: Place)
    requires SoberCall(EffectOf(args), MannerOf(args, false), at)
    ensures SoberStmt(Plainly(Call(args, end, false)), at)
  {
    assert Within(Plainly(Call(args, end, false)), at) == at;
  }

  function Guarded(): (s: Stmt) {
    Plainly(Or(Plainly(Call(Install("curl"), 40, false)), Plainly(Call(EXIT_1, 50, false))))
  }

  lemma GuardedIsSober(at: Place)
    requires !at.confined
    ensures SoberStmt(Guarded(), at)
  {
    InstallCall("curl");
    ExitCall();
    CallIsSober(Install("curl"), 40, Tested(at));
    CallIsSober(EXIT_1, 50, at);
    assert Within(Guarded(), at) == at;
  }

  /** `set -e; apt-get update; apt-get install -y curl || exit 1; curl` is sober. */
  lemma CommonScriptIsSober()
    ensures SoberBlock(Then(Plainly(Call(SET_E, 6, false)), Then(Plainly(Call(UPDATE, 20, false)),
                       Then(Guarded(), Then(Plainly(Call(CURL, 60, false)), End)))))
  {
    var at := Place(true, false, false, OnSuccess);
    var merged := at.(view := Merged);
    SetCall();
    CallIsSober(SET_E, 6, merged);
    UpdateCall();
    CallIsSober(UPDATE, 20, merged);
    GuardedIsSober(merged);
    CurlCall();
    CallIsSober(CURL, 60, at);
    var used := Then(Plainly(Call(CURL, 60, false)), End);
    assert SoberScript(used, at);
    assert SoberScript(Then(Guarded(), used), at);
    var rest := Then(Plainly(Call(UPDATE, 20, false)), Then(Guarded(), used));
    assert SoberScript(rest, at);
    assert SoberScript(Then(Plainly(Call(SET_E, 6, false)), rest), at);
  }

  // ----- wrong -----

  /**
    `exec true` can end the block successfully, but the analysis walks on: whatever it claims of
    the code after it, it claims of the whole, and no execution does any of it.
    */
  lemma ExecSkipsTheRest(ctx: Context, rest: Script, pick: nat -> bool)
    requires forall n :: !pick(n)
    ensures var s := Then(Plainly(Call(EXEC_TRUE, 9, false)), rest);
            var x := RunScript(ctx, s, true, CALM, false, pick, 0, []);
            && ScriptFlow(ctx, s, Flow(ANYTHING, NOWHERE), []) == ScriptFlow(ctx, rest, Flow(ANYTHING, NOWHERE), [])
            && x.outcome == Exited(true) && x.trace == []
  {
    ExecTrueCall();
    var first := Plainly(Call(EXEC_TRUE, 9, false));
    assert StmtFlow(ctx, first, ANYTHING, []) == Analysis(Flow(ANYTHING, NOWHERE), []);
    assert RunStmt(ctx, first, CALM, false, pick, 0, []) == Exec(Exited(true), CALM, 9, []);
  }

  lemma CurlRuns(ctx: Context, end: nat, d: Mode, tested: bool, pick: nat -> bool, clock: nat, trace: seq<Event>)
    requires !d.trapped
    ensures RunStmt(ctx, Plainly(Call(CURL, end, false)), d, tested, pick, clock, trace).trace == trace + [Used(ctx.command)]
  {
    CurlCall();
    var site := Site(ctx.command, end, ctx.source);
    assert RunCmd(ctx, Call(CURL, end, false), d, tested, pick, clock + 5, trace) == RunCall(site, UsesCurl, ORDINARY, d, tested, pick, clock + 5, trace);
  }

  /** `true > f || curl` and `sudo true || curl`: curl can run, and nothing warns about it. */
  lemma UnwarnedUse(ctx: Context, redirected: bool, pick: nat -> bool)
    requires forall n :: pick(n) == (redirected && n == 2)
    ensures var first := if redirected then Stmt(Call(TRUE, 4, false), false, FixedRedirect) else Plainly(Call(SUDO_TRUE, 9, false));
            var c := Or(first, Plainly(Call(CURL, 20, false)));
            && CmdFlow(ctx, c, ANYTHING, []).warnings == []
            && RunCmd(ctx, c, CALM, false, pick, 0, []).trace == [Used(ctx.command)]
  {
    var first := if redirected then Stmt(Call(TRUE, 4, false), false, FixedRedirect) else Plainly(Call(SUDO_TRUE, 9, false));
    FirstFails(ctx, first, redirected, pick);
    CurlUnwarned(ctx, first, pick);
  }

  /** The analysis takes the right side for dead, and it runs. */
  lemma CurlUnwarned(ctx: Context, first: Stmt, pick: nat -> bool)
    requires StmtFlow(ctx, first, ANYTHING, []) == Analysis(Flow(ANYTHING, NOWHERE), [])
    requires var x := RunStmt(ctx, first, CALM, true, pick, 0, []); x.outcome == Ended(false) && x.trace == [] && x.mode == CALM
    ensures var c := Or(first, Plainly(Call(CURL, 20, false)));
            CmdFlow(ctx, c, ANYTHING, []).warnings == [] && RunCmd(ctx, c, CALM, false, pick, 0, []).trace == [Used(ctx.command)]
  {
    CurlRuns(ctx, 20, CALM, false, pick, RunStmt(ctx, first, CALM, true, pick, 0, []).clock, []);
    assert StmtFlow(ctx, Plainly(Call(CURL, 20, false)), NOWHERE, []).warnings == [];
  }

  lemma FirstFails(ctx: Context, first: Stmt, redirected: bool, pick: nat -> bool)
    requires forall n :: pick(n) == (redirected && n == 2)
    requires first == if redirected then Stmt(Call(TRUE, 4, false), false, FixedRedirect) else Plainly(Call(SUDO_TRUE, 9, false))
    ensures StmtFlow(ctx, first, ANYTHING, []) == Analysis(Flow(ANYTHING, NOWHERE), [])
    ensures var x := RunStmt(ctx, first, CALM, true, pick, 0, []); x.outcome == Ended(false) && x.trace == [] && x.mode == CALM
  {
    TrueCall();
    SudoTrueCall();
  }

  /** `( set -e; apt-get update; apt-get install -y vim )` and then `curl`. */
  function StrictSubshell(): (s: Stmt) {
    Plainly(Subshell(Then(Plainly(Call(SET_E, 8, false)), Then(Plainly(Call(UPDATE, 24, false)), Then(Plainly(Call(Install("vim"), 48, false)), End)))))
  }

  lemma StrictSubshellLeft(ctx: Context, pick: nat -> bool)
    requires forall n :: pick(n) == (n == 22)
    ensures RunStmt(ctx, StrictSubshell(), CALM, false, pick, 0, []) == Exec(Ended(false), CALM, 25, [])
  {
    SetCall();
    UpdateCall();
    var strict := Mode(true, false);
    var third := Then(Plainly(Call(Install("vim"), 48, false)), End);
    var second := Then(Plainly(Call(UPDATE, 24, false)), third);
    var body := Then(Plainly(Call(SET_E, 8, false)), second);
    assert RunStmt(ctx, body.first, CALM, false, pick, 5, []) == Exec(Ended(false), strict, 14, []);
    assert RunStmt(ctx, second.first, strict, false, pick, 14, []) == Exec(Exited(false), strict, 23, []);
    assert RunScript(ctx, second, false, strict, false, pick, 14, []) == Exec(Exited(false), strict, 23, []);
    assert RunScript(ctx, body, true, CALM, false, pick, 5, []) == Exec(Exited(false), strict, 23, []);
    assert RunCmd(ctx, Subshell(body), CALM, false, pick, 5, []) == Exec(Ended(false), CALM, 25, []);
  }

  lemma StrictSubshellFlow(ctx: Context)
    ensures StmtFlow(ctx, StrictSubshell(), ANYTHING, []) ==
            Analysis(Flow(ANYTHING.(fix := Some(Site(ctx.command, 48, ctx.source))), ANYTHING.(fix := Some(Site(ctx.command, 48, ctx.source)))), [])
  {
    SetCall();
    UpdateCall();
    Different("vim", "curl", 0);
    InstallCall("vim");
    var any := Flow(ANYTHING, ANYTHING);
    var third := Then(Plainly(Call(Install("vim"), 48, false)), End);
    var second := Then(Plainly(Call(UPDATE, 24, false)), third);
    var body := Then(Plainly(Call(SET_E, 8, false)), second);
    SetFlows(ctx, body.first, ANYTHING, []);
    assert StmtFlow(ctx, second.first, ANYTHING, []) == Analysis(any, []);
    assert ScriptFlow(ctx, second, any, []) == ScriptFlow(ctx, third, any, []);
    assert ScriptFlow(ctx, body, Flow(ANYTHING, NOWHERE), []) == ScriptFlow(ctx, second, any, []);
  }

  /** A warning about curl suggests a fix at an install in front of it that was never made. */
  lemma Misleads(ctx: Context, first: Stmt, site: Site, pick: nat -> bool)
    requires StmtFlow(ctx, first, ANYTHING, []) == Analysis(Flow(ANYTHING.(fix := Some(site)), ANYTHING.(fix := Some(site))), [])
    requires var x := RunStmt(ctx, first, CALM, false, pick, 0, []); x.outcome == Ended(false) && x.trace == [] && x.mode == CALM
    ensures var s := Then(first, Then(Plainly(Call(CURL, 60, false)), End));
            && ScriptFlow(ctx, s, Flow(ANYTHING, NOWHERE), []).warnings == [Warning(ctx.command, Some(site))]
            && RunScript(ctx, s, true, CALM, false, pick, 0, []).trace == [Used(ctx.command)]
  {
    CurlCall();
    CurlRuns(ctx, 60, CALM, false, pick, RunStmt(ctx, first, CALM, false, pick, 0, []).clock, []);
  }

  /** The warning suggests adding curl to an install that `set -e` can skip: curl is then used without it. */
  lemma StrictSubshellMisleads(ctx: Context, pick: nat -> bool)
    requires forall n :: pick(n) == (n == 22)
    ensures var s := Then(StrictSubshell(), Then(Plainly(Call(CURL, 60, false)), End));
            && ScriptFlow(ctx, s, Flow(ANYTHING, NOWHERE), []).warnings == [Warning(ctx.command, Some(Site(ctx.command, 48, ctx.source)))]
            && RunScript(ctx, s, true, CALM, false, pick, 0, []).trace == [Used(ctx.command)]
  {
    StrictSubshellLeft(ctx, pick);
    StrictSubshellFlow(ctx);
    Misleads(ctx, StrictSubshell(), Site(ctx.command, 48, ctx.source), pick);
  }

  /** `( exit 1; apt-get install -y vim )` and then `curl`. */
  function ExitSubshell(): (s: Stmt) {
    Plainly(Subshell(Then(Plainly(Call(EXIT_1, 8, false)), Then(Plainly(Call(Install("vim"), 48, false)), End))))
  }

  lemma ExitSubshellMisleads(ctx: Context, pick: nat -> bool)
    requires forall n :: !pick(n)
    ensures var s := Then(ExitSubshell(), Then(Plainly(Call(CURL, 60, false)), End));
            && ScriptFlow(ctx, s, Flow(ANYTHING, NOWHERE), []).warnings == [Warning(ctx.command, Some(Site(ctx.command, 48, ctx.source)))]
            && RunScript(ctx, s, true, CALM, false, pick, 0, []).trace == [Used(ctx.command)]
  {
    ExitSubshellLeft(ctx, pick);
    ExitSubshellFlow(ctx);
    Misleads(ctx, ExitSubshell(), Site(ctx.command, 48, ctx.source), pick);
  }

  lemma ExitSubshellLeft(ctx: Context, pick: nat -> bool)
    requires forall n :: !pick(n)
    ensures var x := RunStmt(ctx, ExitSubshell(), CALM, false, pick, 0, []); x.outcome == Ended(false) && x.trace == [] && x.mode == CALM
  {
    ExitCall();
    var body := ExitSubshell().cmd.body;
    assert RunStmt(ctx, body.first, CALM, false, pick, 5, []) == Exec(Exited(false), CALM, 14, []);
    assert RunScript(ctx, body, true, CALM, false, pick, 5, []) == Exec(Exited(false), CALM, 14, []);
  }

  lemma ExitSubshellFlow(ctx: Context)
    ensures var after := ANYTHING.(fix := Some(Site(ctx.command, 48, ctx.source)));
            StmtFlow(ctx, ExitSubshell(), ANYTHING, []) == Analysis(Flow(after, after), [])
  {
    ExitCall();
    Different("vim", "curl", 0);
    InstallCall("vim");
    var body := ExitSubshell().cmd.body;
    var any := Flow(ANYTHING, ANYTHING);
    assert StmtFlow(ctx, body.first, ANYTHING, []) == Analysis(any, []);
    assert ScriptFlow(ctx, body, Flow(ANYTHING, NOWHERE), []) == ScriptFlow(ctx, body.rest, any, []);
  }

  /** `apt-get install -y vim > f` and then `curl`: a redirection that fails skips the install as well. */
  lemma RedirectedInstallMisleads(ctx: Context, pick: nat -> bool)
    requires forall n :: pick(n) == (n == 2)
    ensures var s := Then(Stmt(Call(Install("vim"), 48, false), false, FixedRedirect), Then(Plainly(Call(CURL, 60, false)), End));
            && ScriptFlow(ctx, s, Flow(ANYTHING, NOWHERE), []).warnings == [Warning(ctx.command, Some(Site(ctx.command, 48, ctx.source)))]
            && RunScript(ctx, s, true, CALM, false, pick, 0, []).trace == [Used(ctx.command)]
  {
    Different("vim", "curl", 0);
    InstallCall("vim");
    var first := Stmt(Call(Install("vim"), 48, false), false, FixedRedirect);
    assert RunStmt(ctx, first, CALM, false, pick, 0, []) == Exec(Ended(false), CALM, 5, []);
    Misleads(ctx, first, Site(ctx.command, 48, ctx.source), pick);
  }

  /** `eval x; apt-get install -y curl`: the block can succeed without the install that the analysis claims. */
  lemma EvalSkipsTheInstall(ctx: Context, pick: nat -> bool)
    requires forall n :: pick(n) == (n >= 6)
    ensures var s := Then(Plainly(Call(EVAL_X, 6, false)), Then(Plainly(Call(Install("curl"), 40, false)), End));
            var x := RunScript(ctx, s, true, CALM, false, pick, 0, []);
            && ScriptFlow(ctx, s, Flow(ANYTHING, NOWHERE), []).flow.success == ANYTHING.(installed := true)
            && ShellStatus(x, pick) && x.trace == []
  {
    EvalLeaves(ctx, pick);
    EvalFlows(ctx);
  }

  lemma EvalLeaves(ctx: Context, pick: nat -> bool)
    requires forall n :: pick(n) == (n >= 6)
    ensures RunStmt(ctx, Plainly(Call(EVAL_X, 6, false)), CALM, false, pick, 0, []) == Exec(Exited(true), Mode(true, true), 9, [])
  {
    EvalCall();
  }

  lemma EvalFlows(ctx: Context)
    ensures var s := Then(Plainly(Call(EVAL_X, 6, false)), Then(Plainly(Call(Install("curl"), 40, false)), End));
            ScriptFlow(ctx, s, Flow(ANYTHING, NOWHERE), []).flow.success == ANYTHING.(installed := true)
  {
    EvalCall();
    InstallCall("curl");
    var install := Plainly(Call(Install("curl"), 40, false));
    assert StmtFlow(ctx, Plainly(Call(EVAL_X, 6, false)), ANYTHING, []) == Analysis(Flow(ANYTHING, ANYTHING), []);
    assert StmtFlow(ctx, install, ANYTHING, []) == Analysis(Flow(ANYTHING.(installed := true), ANYTHING), []);
  }

  lemma OrFlows(ctx: Context, x: Stmt, y: Stmt)
    requires StmtFlow(ctx, x, ANYTHING, []) == Analysis(Flow(ANYTHING.(installed := true), ANYTHING), [])
    requires StmtFlow(ctx, y, ANYTHING, []) == Analysis(Flow(ANYTHING, ANYTHING), [])
    ensures !StmtFlow(ctx, Plainly(Or(x, y)), ANYTHING, []).flow.success.installed
  {
  }

  lemma OrKnown(ctx: Context, x: Stmt, y: Stmt)
    requires KnownStmt(ctx, x, ANYTHING, CALM, true) == Reach(Flow(ANYTHING.(installed := true), ANYTHING), NOFLOW, CALM)
    requires var b := KnownStmt(ctx, y, ANYTHING, CALM, false); b.flow == NOFLOW && b.left.success == NOWHERE
    ensures var k := KnownStmt(ctx, Plainly(Or(x, y)), ANYTHING, CALM, false); k.flow.success.installed && !k.left.success.reachable
  {
    assert KnownCmd(ctx, Or(x, y), ANYTHING, CALM, false) ==
           OrReach(KnownStmt(ctx, x, ANYTHING, CALM, true), KnownStmt(ctx, y, ANYTHING, CALM, false));
  }

  lemma GuardedFlows(ctx: Context)
    ensures !StmtFlow(ctx, Guarded(), ANYTHING, []).flow.success.installed
  {
    InstallCall("curl");
    ExitCall();
    OrFlows(ctx, Guarded().cmd.x, Guarded().cmd.y);
  }

  lemma InstallKnows(ctx: Context, end: nat, tested: bool)
    ensures KnownStmt(ctx, Plainly(Call(Install("curl"), end, false)), ANYTHING, CALM, tested) ==
            Reach(Flow(ANYTHING.(installed := true), ANYTHING), NOFLOW, CALM)
  {
    InstallCall("curl");
  }

  lemma GuardedKnows(ctx: Context)
    ensures var k := KnownStmt(ctx, Guarded(), ANYTHING, CALM, false); k.flow.success.installed && !k.left.success.reachable
  {
    InstallKnows(ctx, 40, true);
    ExitKnows(ctx, 50, ANYTHING, CALM, false);
    OrKnown(ctx, Guarded().cmd.x, Guarded().cmd.y);
  }

  /** After `apt-get install -y curl || exit 1` curl is always there, and the analysis does not know it: it walks on behind `exit`. */
  lemma GuardIsNotFollowed(ctx: Context, pick: nat -> bool, clock: nat)
    ensures !StmtFlow(ctx, Guarded(), ANYTHING, []).flow.success.installed
    ensures var x := RunStmt(ctx, Guarded(), CALM, false, pick, clock, []); x.outcome.ok ==> Present(x.trace)
  {
    GuardedFlows(ctx);
    GuardedKnows(ctx);
    StmtKnows(ctx, Guarded(), ANYTHING, CALM, false, CALM, pick, clock, []);
  }
}
