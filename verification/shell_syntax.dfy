/**
  The fragment of shell syntax the dependency analysis claims something about:
  simple commands, sequences, blocks, subshells, `&&`, `||`, `!` and
  if/elif/else, together with its two argument parsers.
  */
module ShellSyntax {
  import opened Wrappers

  /** A word's literal text, or nothing when it is not literal. */
  datatype Word = Literal(text: string) | Dynamic

  function Text(w: Word): (s: string) {
    if w.Literal? then w.text else ""
  }

  datatype Script = End | Then(first: Stmt, rest: Script)

  /** No redirection, some to literal files, or one whose target has to be expanded. */
  datatype Redirect = NoRedirect | FixedRedirect | ExpandedRedirect

  datatype Stmt = Stmt(cmd: Cmd, negated: bool, redirect: Redirect)

  /** `end` is the source offset just after a call's last argument; `assigns` says that assignments lead it. */
  datatype Cmd =
    | Nothing
    | Call(args: seq<Word>, end: nat, assigns: bool)
    | Block(body: Script)
    | Subshell(body: Script)
    | And(x: Stmt, y: Stmt)
    | Or(x: Stmt, y: Stmt)
    | If(cond: Script, body: Script, otherwise: Else)

  datatype Else = NoElse | Else(body: Script) | Elif(clause: Cmd)

  predicate Dashed(s: string) {
    |s| > 0 && s[0] == '-'
  }

  // ----- command prefixes -----

  /**
    The command behind its prefixes; `handsOver` means exec'd, `elevated` means run by sudo, and
    `hidden` that an option stands in front of a command the shell runs all the same.
    */
  datatype Target = Target(args: seq<string>, handsOver: bool, elevated: bool, hidden: bool)

  function SkipDashDash(args: seq<string>): (r: seq<string>)
    ensures |r| <= |args|
  {
    if |args| > 0 && args[0] == "--" then args[1..] else args
  }

  function SkipSudoFlags(args: seq<string>): (r: seq<string>)
    ensures |r| <= |args|
  {
    if |args| > 0 && args[0] == "--" then args[1..]
    else if |args| > 0 && (args[0] == "-H" || args[0] == "-n") then SkipSudoFlags(args[1..])
    else args
  }

  /** `command -v name` does not run the name, and what unknown options do is not followed: no target. */
  function Stripped(args: seq<string>, handsOver: bool, elevated: bool): (t: Target)
    decreases |args|
  {
    if |args| == 0 then Target([], handsOver, elevated, false)
    else if args[0] == "command" || args[0] == "exec" then
      var rest := SkipDashDash(args[1..]);
      if |rest| > 0 && Dashed(rest[0]) then
        Target([], handsOver, elevated, !elevated && !(args[0] == "command" && (rest[0] == "-v" || rest[0] == "-V")))
      else Stripped(rest, handsOver || (args[0] == "exec" && !elevated), elevated)
    else if args[0] == "sudo" then
      var rest := SkipSudoFlags(args[1..]);
      if |rest| > 0 && Dashed(rest[0]) then Target([], handsOver, elevated, false)
      else Stripped(rest, handsOver, true)
    else Target(args, handsOver, elevated, false)
  }

  /** The source's loop. */
  method DependencyCommandArgs(words: seq<string>) returns (args: seq<string>)
    ensures args == Stripped(words, false, false).args
  {
    args := words;
    ghost var handsOver, elevated := false, false;
    while |args| > 0
      invariant Stripped(words, false, false) == Stripped(args, handsOver, elevated)
      decreases |args|
    {
      if args[0] == "command" || args[0] == "exec" {
        handsOver := handsOver || (args[0] == "exec" && !elevated);
        args := args[1..];
        if |args| > 0 && args[0] == "--" {
          args := args[1..];
        }
        if |args| > 0 && Dashed(args[0]) {
          return [];
        }
      } else if args[0] == "sudo" {
        elevated := true;
        args := args[1..];
        ghost var after := args;
        while |args| > 0 && (args[0] == "-H" || args[0] == "-n" || args[0] == "--")
          invariant |args| <= |after|
          invariant SkipSudoFlags(after) == SkipSudoFlags(args)
          decreases |args|
        {
          var last := args[0] == "--";
          args := args[1..];
          if last {
            break;
          }
        }
        assert args == SkipSudoFlags(after);
        if |args| > 0 && Dashed(args[0]) {
          return [];
        }
      } else {
        return;
      }
    }
  }

  // ----- literal apt commands -----

  datatype Apt = Apt(action: string, packages: seq<string>)

  predicate HarmlessFlag(a: string) {
    || a == "-y" || a == "--yes" || a == "--assume-yes" || a == "-q" || a == "-qq" || a == "-yq" || a == "-qy"
    || a == "--no-install-recommends" || a == "--no-install-suggests" || a == "--reinstall"
  }

  predicate AptAction(a: string) {
    a == "install" || a == "remove" || a == "purge"
  }

  function Positional(args: seq<string>): (r: seq<string>) {
    if args == [] then []
    else Positional(args[..|args| - 1]) + (if Dashed(args[|args| - 1]) then [] else [args[|args| - 1]])
  }

  /** Every word is understood: nonempty, and a harmless flag if it is a flag at all. */
  predicate Understood(args: seq<string>) {
    args == [] || (Understood(args[..|args| - 1]) && WordOk(args[|args| - 1]))
  }

  function LiteralApt(args: seq<string>): (r: Option<Apt>) {
    if |args| < 3 || (args[0] != "apt-get" && args[0] != "apt") || !Understood(args[1..]) then None
    else
      var words := Positional(args[1..]);
      if |words| >= 2 && AptAction(words[0]) then Some(Apt(words[0], words[1..])) else None
  }

  lemma {:induction false} PositionalSplits(xs: seq<string>, ys: seq<string>)
    ensures Positional(xs + ys) == Positional(xs) + Positional(ys)
    decreases |ys|
  {
    if ys == [] {
      assert xs + ys == xs;
    } else {
      assert (xs + ys)[..|xs + ys| - 1] == xs + ys[..|ys| - 1];
      PositionalSplits(xs, ys[..|ys| - 1]);
    }
  }

  predicate WordOk(a: string) {
    a != "" && (Dashed(a) ==> HarmlessFlag(a))
  }

  lemma {:induction false} UnderstoodPrefix(args: seq<string>, k: nat)
    requires k <= |args| && Understood(args)
    ensures Understood(args[..k])
    decreases |args|
  {
    if k < |args| {
      UnderstoodPrefix(args[..|args| - 1], k);
      assert args[..|args| - 1][..k] == args[..k];
    } else {
      assert args[..k] == args;
    }
  }

  lemma PositionalPrefix(args: seq<string>, k: nat)
    requires k <= |args|
    ensures Positional(args[..k]) <= Positional(args)
  {
    assert args == args[..k] + args[k..];
    PositionalSplits(args[..k], args[k..]);
  }

  lemma UnderstoodUpTo(args: seq<string>, k: nat)
    requires k <= |args|
    ensures Understood(args) ==> Understood(args[..k])
  {
    if Understood(args) {
      UnderstoodPrefix(args, k);
    }
  }

  lemma OneMoreWord(front: seq<string>, w: string)
    ensures Understood(front + [w]) <==> Understood(front) && WordOk(w)
    ensures Positional(front + [w]) == Positional(front) + (if Dashed(w) then [] else [w])
  {
    assert (front + [w])[..|front|] == front;
  }

  /** What one more word contributes. */
  lemma NextWord(args: seq<string>, i: nat, more: seq<string>)
    requires i < |args| && more == args[..i + 1]
    ensures Understood(more) <==> Understood(args[..i]) && WordOk(args[i])
    ensures Positional(more) == Positional(args[..i]) + (if Dashed(args[i]) then [] else [args[i]])
  {
    assert more == args[..i] + [args[i]];
    OneMoreWord(args[..i], args[i]);
  }

  method LiteralAptCommand(args: seq<string>) returns (r: Option<Apt>)
    ensures r == LiteralApt(args)
  {
    if |args| < 3 || (args[0] != "apt-get" && args[0] != "apt") {
      return None;
    }
    var understood, action, packages := ScanApt(args[1..]);
    if understood && action != "" && |packages| > 0 {
      return Some(Apt(action, packages));
    }
    return None;
  }

  /** The loop; it gives up (`!ok`) at the first word it does not understand. */
  method ScanApt(rest: seq<string>) returns (ok: bool, action: string, packages: seq<string>)
    ensures ok ==> Understood(rest) && Positional(rest) == (if action == "" then [] else [action] + packages)
    ensures ok && action != "" ==> AptAction(action)
    ensures ok && action == "" ==> packages == []
    ensures !ok ==> !Understood(rest) || (|Positional(rest)| > 0 && !AptAction(Positional(rest)[0]))
  {
    action, packages := "", [];
    for i := 0 to |rest|
      invariant Understood(rest[..i])
      invariant Positional(rest[..i]) == if action == "" then [] else [action] + packages
      invariant action == "" ==> packages == []
      invariant action != "" ==> AptAction(action)
    {
      var arg := rest[i];
      NextWord(rest, i, rest[..i + 1]);
      PositionalPrefix(rest, i + 1);
      UnderstoodUpTo(rest, i + 1);
      if arg == "" {
        return false, "", [];
      }
      if Dashed(arg) {
        if !HarmlessFlag(arg) {
          return false, "", [];
        }
      } else if action == "" {
        if arg != "install" && arg != "remove" && arg != "purge" {
          return false, "", [];
        }
        action := arg;
      } else {
        packages := packages + [arg];
      }
    }
    assert rest[..|rest|] == rest;
    ok := true;
  }
}
