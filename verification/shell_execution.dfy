/**
  What a script can actually do. Sections 2.8.1, 2.9.1 to 2.9.4 and 2.14 of the POSIX.1-2017
  Shell Command Language give the control flow; every free outcome is decided by an arbitrary
  function `pick`, so a claim for all `pick` is a claim for all executions.

  A shell can be left early by `exec` and `exit`, by code the analysis does not see, by an
  error in expanding, assigning or redirecting, by an error of a special built-in, and, once
  `set` has run, by any failure in a place where it is not tested. A trap can leave it at any
  time and decide its status.
  */
module ShellExecution {
  import opened Wrappers
  import opened ShellSyntax
  import opened DependencyAnalysis
  import opened CommandMeaning

  /** What an execution leaves behind, as far as literal commands go. */
  datatype Event = Installed | Removed | Attempted(site: Site) | Used(command: nat)

  datatype Outcome = Ended(ok: bool) | Exited(ok: bool)

  /** What earlier commands may have done to the shell: set its options, or its traps. */
  datatype Mode = Mode(strict: bool, trapped: bool)

  const CALM := Mode(false, false)

  datatype Exec = Exec(outcome: Outcome, mode: Mode, clock: nat, trace: seq<Event>)

  // ----- simple commands -----

  /**
    How a simple command behaves, apart from its effect: it runs under sudo, always leaves the
    shell (and always with failure), runs code that is not seen, can fail so as to end the
    shell, is a special built-in, or sets options.
    */
  datatype Manner = Manner(elevated: bool, leaves: bool, failing: bool, unseen: bool, brittle: bool, special: bool, sets: bool)

  predicate Digits(s: string) {
    forall i :: 0 <= i < |s| ==> '0' <= s[i] <= '9'
  }

  /** An exit status between 1 and 99, or between 100 and 255. */
  predicate NonzeroStatus(s: string) {
    Digits(s) &&
    (|| (1 <= |s| <= 2 && s[0] != '0')
     || (|s| == 3 && s[0] == '1')
     || (|s| == 3 && s[0] == '2' && (s[1] < '5' || (s[1] == '5' && s[2] <= '5'))))
  }

  predicate SpecialName(s: string) {
    || s == "break" || s == ":" || s == "continue" || s == "." || s == "eval" || s == "exec" || s == "exit" || s == "export"
    || s == "readonly" || s == "return" || s == "set" || s == "shift" || s == "times" || s == "trap" || s == "unset"
  }

  /** Built-ins that run code the analysis does not see, or say when it runs. */
  predicate UnseenName(s: string) {
    s == "eval" || s == "." || s == "source" || s == "trap" || s == "return"
  }

  /** An option word of `set` that cannot stop the shell from executing. */
  predicate OrdinaryOption(s: string) {
    && s != "noexec" && s != "onecmd"
    && (|s| > 0 && (s[0] == '-' || s[0] == '+') ==> 'n' !in s && 't' !in s)
  }

  predicate OrdinarySet(args: seq<Word>) {
    forall i :: 0 <= i < |args| ==> args[i].Literal? && OrdinaryOption(args[i].text)
  }

  /** An empty name stands for one that is not literal. */
  function MannerOf(args: seq<Word>, assigns: bool): (m: Manner) {
    var t := TargetOf(args);
    var name := if |t.args| > 0 then Some(t.args[0]) else None;
    var own := name.Some? && !t.elevated && !t.handsOver;
    var exits := own && name == Some("exit") && |t.args| <= 2 && AllLiteral(args);
    var special := |args| > 0 && (args[0].Dynamic? || SpecialName(args[0].text));
    Manner(elevated := t.elevated,
           leaves := exits || (name.Some? && t.handsOver && name != Some("")),
           failing := exits && |t.args| == 2 && NonzeroStatus(t.args[1]),
           unseen := || t.hidden || (name == Some("") && !t.elevated)
                     || (own && !exits && (UnseenName(name.value) || name == Some("exit")))
                     || (own && name == Some("set") && !OrdinarySet(args)),
           brittle := assigns || !AllLiteral(args) || (special && args[0] != Literal(":")),
           special := special,
           sets := own && name == Some("set"))
  }

  function CallResult(e: Effect, m: Manner, free: bool): (ok: bool) {
    if m.failing then false
    else
      match e
      case Succeeds => if m.elevated then free else true
      case Fails => false
      case _ => free
  }

  function CallEvents(site: Site, e: Effect, ok: bool): (es: seq<Event>) {
    match e
    case UsesCurl => [Used(site.command)]
    case InstallsCurl => if ok then [Installed] else []
    case RemovesCurl => if ok then [Removed] else []
    case InstallsOther => [Attempted(site)]
    case _ => []
  }

  function AfterCall(m: Manner, mode: Mode): (r: Mode) {
    Mode(mode.strict || m.sets || m.unseen, mode.trapped || m.unseen)
  }

  function RunCall(site: Site, e: Effect, m: Manner, mode: Mode, tested: bool, pick: nat -> bool, clock: nat,
                   trace: seq<Event>): (x: Exec)
  {
    if m.brittle && pick(clock) then Exec(Exited(false), mode, clock + 1, trace)
    else
      var ok := CallResult(e, m, pick(clock + 1));
      var after := AfterCall(m, mode);
      var gone := m.leaves || (m.unseen && pick(clock + 2)) || (!ok && after.strict && !tested && pick(clock + 3));
      Exec(if gone then Exited(ok) else Ended(ok), after, clock + 4, trace + CallEvents(site, e, ok))
  }

  // ----- scripts -----

  function Negated(o: Outcome, negated: bool): (r: Outcome) {
    if o.Ended? && negated then Ended(!o.ok) else o
  }

  /** A failed redirection here can end the shell. */
  predicate Touchy(s: Stmt) {
    s.redirect == ExpandedRedirect || (s.cmd.Call? && MannerOf(s.cmd.args, s.cmd.assigns).special)
  }

  predicate Trapped(mode: Mode, pick: nat -> bool, clock: nat) {
    mode.trapped && pick(clock)
  }

  predicate Refused(s: Stmt, pick: nat -> bool, clock: nat) {
    s.redirect != NoRedirect && pick(clock + 2)
  }

  function RunRefused(s: Stmt, mode: Mode, shielded: bool, pick: nat -> bool, clock: nat, trace: seq<Event>): (x: Exec) {
    var gone := (Touchy(s) && pick(clock + 3)) || (mode.strict && !shielded && pick(clock + 4));
    Exec(if gone then Exited(false) else Ended(s.negated), mode, clock + 5, trace)
  }

  /** A redirection that fails keeps the command from running at all. */
  function RunStmt(ctx: Context, s: Stmt, mode: Mode, tested: bool, pick: nat -> bool, clock: nat, trace: seq<Event>): (x: Exec)
    decreases s
  {
    if Trapped(mode, pick, clock) then Exec(Exited(pick(clock + 1)), mode, clock + 2, trace)
    else if Refused(s, pick, clock) then RunRefused(s, mode, tested || s.negated, pick, clock, trace)
    else
      var x := RunCmd(ctx, s.cmd, mode, tested || s.negated, pick, clock + 5, trace);
      x.(outcome := Negated(x.outcome, s.negated))
  }

  /** A list's status is its last statement's; nothing but leaving the shell cuts it short. */
  function RunScript(ctx: Context, s: Script, last: bool, mode: Mode, tested: bool, pick: nat -> bool, clock: nat,
                     trace: seq<Event>): (x: Exec)
    decreases s
  {
    match s
    case End => Exec(Ended(last), mode, clock, trace)
    case Then(first, rest) =>
      var x := RunStmt(ctx, first, mode, tested, pick, clock, trace);
      if x.outcome.Exited? then x else RunScript(ctx, rest, x.outcome.ok, x.mode, tested, pick, x.clock, x.trace)
  }

  /** The status of a shell that has come to its end or been left. */
  function ShellStatus(x: Exec, pick: nat -> bool): (ok: bool) {
    if x.mode.trapped then pick(x.clock) else x.outcome.ok
  }

  /** A subshell starts with the options of its shell and without its traps. */
  function RunCmd(ctx: Context, c: Cmd, mode: Mode, tested: bool, pick: nat -> bool, clock: nat, trace: seq<Event>): (x: Exec)
    decreases c
  {
    match c
    case Nothing => Exec(Ended(true), mode, clock, trace)
    case Call(args, end, assigns) =>
      RunCall(Site(ctx.command, end, ctx.source), Deed(args), MannerOf(args, assigns), mode, tested, pick, clock, trace)
    case Block(body) => RunScript(ctx, body, true, mode, tested, pick, clock, trace)
    case Subshell(body) =>
      var x := RunScript(ctx, body, true, mode.(trapped := false), tested, pick, clock, trace);
      var ok := ShellStatus(x, pick);
      var gone := !ok && mode.strict && !tested && pick(x.clock + 1);
      Exec(if gone then Exited(false) else Ended(ok), mode, x.clock + 2, x.trace)
    case And(x, y) =>
      var left := RunStmt(ctx, x, mode, true, pick, clock, trace);
      if left.outcome == Ended(true) then RunStmt(ctx, y, left.mode, tested, pick, left.clock, left.trace) else left
    case Or(x, y) =>
      var left := RunStmt(ctx, x, mode, true, pick, clock, trace);
      if left.outcome == Ended(false) then RunStmt(ctx, y, left.mode, tested, pick, left.clock, left.trace) else left
    case If(cond, body, otherwise) =>
      var condition := RunScript(ctx, cond, true, mode, true, pick, clock, trace);
      if condition.outcome.Exited? then condition
      else if condition.outcome.ok then RunScript(ctx, body, true, condition.mode, tested, pick, condition.clock, condition.trace)
      else RunElse(ctx, otherwise, condition.mode, tested, pick, condition.clock, condition.trace)
  }

  function RunElse(ctx: Context, e: Else, mode: Mode, tested: bool, pick: nat -> bool, clock: nat, trace: seq<Event>): (x: Exec)
    decreases e
  {
    match e
    case NoElse => Exec(Ended(true), mode, clock, trace)
    case Else(body) => RunScript(ctx, body, true, mode, tested, pick, clock, trace)
    case Elif(clause) => RunCmd(ctx, clause, mode, tested, pick, clock, trace)
  }
}
