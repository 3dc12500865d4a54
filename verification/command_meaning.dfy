/**
  What a literal command does, said of its words: which word is the program, whether it is run
  by sudo or handed the shell's process, and what it asks apt to install or remove. The
  analysis's two parsers and its classification are proved to agree with this on every command.
  */
module CommandMeaning {
  import opened Wrappers
  import opened ShellSyntax
  import opened DependencyAnalysis

  // ----- the program -----

  predicate PrefixName(w: string) {
    w == "command" || w == "exec" || w == "sudo"
  }

  predicate SudoFlag(w: string) {
    w == "-H" || w == "-n"
  }

  /** A prefix, one `--` behind it, or a flag of sudo. */
  predicate Prefixing(words: seq<string>, i: nat) {
    i < |words| &&
    (|| PrefixName(words[i])
     || (i > 0 && words[i] == "--" && (PrefixName(words[i - 1]) || SudoFlag(words[i - 1])))
     || (i > 0 && SudoFlag(words[i]) && (words[i - 1] == "sudo" || SudoFlag(words[i - 1]))))
  }

  predicate AllPrefixing(words: seq<string>, k: nat) {
    forall i :: 0 <= i < k ==> Prefixing(words, i)
  }

  /** Behind nothing but prefixes stands the program, which is no option. */
  predicate ProgramAt(words: seq<string>, k: nat) {
    k < |words| && AllPrefixing(words, k) && !PrefixName(words[k]) && (k > 0 ==> !Dashed(words[k]))
  }

  predicate UnderSudo(words: seq<string>, k: nat) {
    exists i :: 0 <= i < k && i < |words| && words[i] == "sudo"
  }

  /** `exec` before any `sudo`. */
  predicate Execed(words: seq<string>, k: nat) {
    exists i :: 0 <= i < k && i < |words| && words[i] == "exec" && !UnderSudo(words, i)
  }

  lemma PrefixingIsNoProgram(words: seq<string>, k: nat)
    requires Prefixing(words, k)
    ensures !ProgramAt(words, k)
  {
  }

  lemma OneProgram(words: seq<string>, j: nat, k: nat)
    requires ProgramAt(words, j) && ProgramAt(words, k)
    ensures j == k
  {
    if j < k {
      PrefixingIsNoProgram(words, j);
    } else if k < j {
      PrefixingIsNoProgram(words, k);
    }
  }

  /** Prefixes up to the end, or up to an option that is none of theirs: there is no program. */
  lemma NoProgram(words: seq<string>, n: nat, k: nat)
    requires AllPrefixing(words, n) && (n < |words| ==> n > 0 && Dashed(words[n]) && !Prefixing(words, n))
    ensures !ProgramAt(words, k)
  {
    if k < n {
      PrefixingIsNoProgram(words, k);
    }
  }

  /** Behind nothing but prefixes stands an option that is none of theirs. */
  predicate OptionAt(words: seq<string>, n: nat) {
    0 < n < |words| && AllPrefixing(words, n) && Dashed(words[n]) && !Prefixing(words, n)
  }

  /** `command -v` and `command -V` only look a name up. */
  predicate LooksUp(words: seq<string>, n: nat) {
    && 0 < n < |words| && (words[n] == "-v" || words[n] == "-V")
    && (words[n - 1] == "command" || (n > 1 && words[n - 1] == "--" && words[n - 2] == "command"))
  }

  /** An option of `command` or `exec` that may run any program in this shell. */
  predicate HiddenAt(words: seq<string>, n: nat) {
    OptionAt(words, n) && !UnderSudo(words, n) && !LooksUp(words, n)
  }

  lemma OneOption(words: seq<string>, n: nat, m: nat)
    requires AllPrefixing(words, n) && (n < |words| ==> !Prefixing(words, n)) && OptionAt(words, m)
    ensures m == n
  {
  }

  lemma ProgramIsNoOption(words: seq<string>, n: nat, m: nat)
    requires ProgramAt(words, n)
    ensures !OptionAt(words, m)
  {
    if OptionAt(words, m) {
      if n < m {
        PrefixingIsNoProgram(words, n);
      }
    }
  }

  // ----- the prefix parser agrees -----

  /** The target is the program with its words, and how it is run; none if there is none. */
  ghost predicate Finds(words: seq<string>, t: Target) {
    && (forall k: nat :: ProgramAt(words, k) ==>
          t.args == words[k..] && t.elevated == UnderSudo(words, k) && t.handsOver == Execed(words, k))
    && ((forall k: nat :: !ProgramAt(words, k)) ==> t.args == [])
    && (t.hidden <==> exists n: nat :: HiddenAt(words, n))
  }

  lemma FindsNothing(words: seq<string>, n: nat, t: Target)
    requires AllPrefixing(words, n) && (n < |words| ==> n > 0 && Dashed(words[n]) && !Prefixing(words, n)) && t.args == []
    requires t.hidden == HiddenAt(words, n)
    ensures Finds(words, t)
  {
    forall m: nat | HiddenAt(words, m) ensures m == n {
      OneOption(words, n, m);
    }
    forall k: nat ensures !ProgramAt(words, k) {
      NoProgram(words, n, k);
    }
  }

  lemma FindsProgram(words: seq<string>, n: nat, t: Target)
    requires ProgramAt(words, n) && t.args == words[n..] && t.elevated == UnderSudo(words, n) && t.handsOver == Execed(words, n) && !t.hidden
    ensures Finds(words, t)
  {
    forall m: nat ensures !HiddenAt(words, m) {
      ProgramIsNoOption(words, n, m);
    }
    forall k: nat | ProgramAt(words, k) ensures k == n {
      OneProgram(words, n, k);
    }
  }

  /** How far the flags of a sudo at n reach. */
  lemma {:induction false} FlagsReach(words: seq<string>, n: nat, m: nat) returns (e: nat)
    requires n < m <= |words| && words[n] == "sudo" && AllPrefixing(words, m) && forall i :: n < i < m ==> SudoFlag(words[i])
    ensures m <= e <= |words| && AllPrefixing(words, e) && words[e..] == SkipSudoFlags(words[m..])
    ensures e < |words| && Dashed(words[e]) ==> !Prefixing(words, e)
    ensures forall i :: n < i < e ==> words[i] != "sudo" && words[i] != "exec"
    decreases |words| - m
  {
    if m < |words| && words[m] == "--" {
      e := m + 1;
      assert words[m..][1..] == words[m + 1..];
    } else if m < |words| && SudoFlag(words[m]) {
      assert words[m..][1..] == words[m + 1..];
      e := FlagsReach(words, n, m + 1);
    } else {
      e := m;
    }
  }

  /** What a prefix at n adds, if nothing up to e is another. */
  lemma RunAs(words: seq<string>, n: nat, e: nat)
    requires n < e <= |words| && forall i :: n < i < e ==> words[i] != "sudo" && words[i] != "exec"
    ensures UnderSudo(words, e) == (UnderSudo(words, n) || words[n] == "sudo")
    ensures Execed(words, e) == (Execed(words, n) || (words[n] == "exec" && !UnderSudo(words, n)))
  {
    if UnderSudo(words, n) || words[n] == "sudo" {
      var i :| 0 <= i <= n && words[i] == "sudo";
      assert UnderSudo(words, e);
    }
    if Execed(words, n) {
      var i :| 0 <= i < n && words[i] == "exec" && !UnderSudo(words, i);
      assert Execed(words, e);
    }
    if words[n] == "exec" && !UnderSudo(words, n) {
      assert Execed(words, e);
    }
  }

  lemma {:induction false} StripsFrom(words: seq<string>, n: nat)
    requires n <= |words| && AllPrefixing(words, n) && (0 < n < |words| ==> !Dashed(words[n]))
    ensures Finds(words, Stripped(words[n..], Execed(words, n), UnderSudo(words, n)))
    decreases |words| - n
  {
    if n == |words| {
      FindsNothing(words, n, Stripped(words[n..], Execed(words, n), UnderSudo(words, n)));
    } else if !PrefixName(words[n]) {
      FindsProgram(words, n, Stripped(words[n..], Execed(words, n), UnderSudo(words, n)));
    } else if words[n] == "sudo" {
      StripsSudo(words, n);
    } else {
      StripsPlain(words, n);
    }
  }

  lemma StripsSudo(words: seq<string>, n: nat)
    requires n < |words| && words[n] == "sudo" && AllPrefixing(words, n)
    ensures Finds(words, Stripped(words[n..], Execed(words, n), UnderSudo(words, n)))
    decreases |words| - n, 0
  {
    assert words[n..][1..] == words[n + 1..];
    var e := FlagsReach(words, n, n + 1);
    RunAs(words, n, e);
    Different("sudo", "exec");
    if e < |words| && Dashed(words[e]) {
      FindsNothing(words, e, Stripped(words[n..], Execed(words, n), UnderSudo(words, n)));
    } else {
      StripsFrom(words, e);
    }
  }

  lemma StripsPlain(words: seq<string>, n: nat)
    requires n < |words| && (words[n] == "command" || words[n] == "exec") && AllPrefixing(words, n)
    ensures Finds(words, Stripped(words[n..], Execed(words, n), UnderSudo(words, n)))
    decreases |words| - n, 0
  {
    assert words[n..][1..] == words[n + 1..];
    var e := if n + 1 < |words| && words[n + 1] == "--" then n + 2 else n + 1;
    assert SkipDashDash(words[n + 1..]) == words[e..];
    assert AllPrefixing(words, e);
    RunAs(words, n, e);
    Different("exec", "sudo");
    if e < |words| && Dashed(words[e]) {
      assert !Prefixing(words, e);
      FindsNothing(words, e, Stripped(words[n..], Execed(words, n), UnderSudo(words, n)));
    } else {
      StripsFrom(words, e);
    }
  }

  lemma Different(a: string, b: string)
    requires |a| > 0 && |b| > 0 && a[0] != b[0]
    ensures a != b
  {
  }

  /** For every command: what the parser leaves is the program with its words, and how it is run is what the prefixes say. */
  lemma StrippedIsProgram(words: seq<string>)
    ensures Finds(words, Stripped(words, false, false))
  {
    assert words[0..] == words;
    StripsFrom(words, 0);
  }

  // ----- apt commands -----

  const HARMLESS: set<string> :=
    {"-y", "--yes", "--assume-yes", "-q", "-qq", "-yq", "-qy", "--no-install-recommends", "--no-install-suggests", "--reinstall"}

  /** apt or apt-get at k, and behind it only words that are understood: no empty one, and no option that could change what it does. */
  predicate AptAt(words: seq<string>, k: nat) {
    && k < |words| && (words[k] == "apt" || words[k] == "apt-get")
    && forall i :: k < i < |words| ==> words[i] != "" && (words[i][0] == '-' ==> words[i] in HARMLESS)
  }

  /** The first word behind the program that is no option. */
  predicate ActionAt(words: seq<string>, k: nat, a: nat) {
    && k < a < |words| && !Dashed(words[a])
    && (words[a] == "install" || words[a] == "remove" || words[a] == "purge")
    && forall i :: k < i < a ==> Dashed(words[i])
  }

  predicate NamesPackage(words: seq<string>, a: nat) {
    exists i :: a < i < |words| && !Dashed(words[i])
  }

  /** `curl`, `curl+` and `curl=version` ask for the package. */
  predicate AsksForCurl(words: seq<string>, a: nat) {
    exists i :: a < i < |words| && (words[i] == "curl" || words[i] == "curl+" || (|words[i]| >= 5 && words[i][..5] == "curl="))
  }

  /** `curl-` asks for its removal, whatever the action. */
  predicate AsksAgainstCurl(words: seq<string>, a: nat) {
    exists i :: a < i < |words| && words[i] == "curl-"
  }

  /** A literal apt command with program at k and action at a. */
  predicate AptCommand(args: seq<Word>, k: nat, a: nat) {
    AllLiteral(args) && ProgramAt(Texts(args), k) && AptAt(Texts(args), k) && ActionAt(Texts(args), k, a) && NamesPackage(Texts(args), a)
  }

  predicate Runs(args: seq<Word>, name: string) {
    exists k :: 0 <= k < |args| && ProgramAt(Texts(args), k) && Texts(args)[k] == name
  }

  predicate MeansSuccess(args: seq<Word>) {
    Runs(args, "true") || Runs(args, ":")
  }

  predicate MeansFailure(args: seq<Word>) {
    Runs(args, "false")
  }

  predicate MeansUse(args: seq<Word>) {
    Runs(args, "curl") || Runs(args, "/usr/bin/curl") || Runs(args, "/bin/curl")
  }

  predicate MeansRemoval(args: seq<Word>) {
    exists k, a :: 0 <= k < |args| && 0 <= a < |args| && AptCommand(args, k, a) &&
                   (AsksAgainstCurl(Texts(args), a) || (Texts(args)[a] != "install" && AsksForCurl(Texts(args), a)))
  }

  predicate MeansInstall(args: seq<Word>) {
    exists k, a :: 0 <= k < |args| && 0 <= a < |args| && AptCommand(args, k, a) &&
                   Texts(args)[a] == "install" && !AsksAgainstCurl(Texts(args), a) && AsksForCurl(Texts(args), a)
  }

  predicate MeansOtherInstall(args: seq<Word>) {
    exists k, a :: 0 <= k < |args| && 0 <= a < |args| && AptCommand(args, k, a) &&
                   Texts(args)[a] == "install" && !AsksAgainstCurl(Texts(args), a) && !AsksForCurl(Texts(args), a)
  }

  /** What the command does when it is executed. */
  function Deed(args: seq<Word>): (e: Effect) {
    if MeansSuccess(args) then Succeeds
    else if MeansFailure(args) then Fails
    else if MeansUse(args) then UsesCurl
    else if MeansRemoval(args) then RemovesCurl
    else if MeansInstall(args) then InstallsCurl
    else if MeansOtherInstall(args) then InstallsOther
    else Plain
  }

  // ----- the apt parser agrees -----

  lemma {:induction false} UnderstoodIff(ws: seq<string>)
    ensures Understood(ws) <==> forall i :: 0 <= i < |ws| ==> WordOk(ws[i])
  {
    if ws != [] {
      UnderstoodIff(ws[..|ws| - 1]);
    }
  }

  lemma HarmlessIff(w: string)
    ensures HarmlessFlag(w) <==> w in HARMLESS
  {
  }

  lemma {:induction false} PositionalIff(ws: seq<string>, p: string)
    ensures p in Positional(ws) <==> exists i :: 0 <= i < |ws| && ws[i] == p && !Dashed(ws[i])
  {
    if ws != [] {
      var n := |ws| - 1;
      PositionalIff(ws[..n], p);
      if p in Positional(ws) {
        if p in Positional(ws[..n]) {
          var i :| 0 <= i < n && ws[..n][i] == p && !Dashed(ws[..n][i]);
          assert ws[i] == p;
        } else {
          assert ws[n] == p && !Dashed(ws[n]);
        }
      }
      if i :| 0 <= i < |ws| && ws[i] == p && !Dashed(ws[i]) {
        assert i < n ==> ws[..n][i] == p;
      }
    }
  }

  lemma {:induction false} OnlyOptions(ws: seq<string>)
    requires forall i :: 0 <= i < |ws| ==> Dashed(ws[i])
    ensures Positional(ws) == []
  {
    if ws != [] {
      OnlyOptions(ws[..|ws| - 1]);
    }
  }

  /** The positional words begin with the first word that is no option. */
  lemma FirstPositional(ws: seq<string>, a: nat)
    requires a < |ws| && !Dashed(ws[a]) && forall i :: 0 <= i < a ==> Dashed(ws[i])
    ensures Positional(ws) == [ws[a]] + Positional(ws[a + 1..])
  {
    OnlyOptions(ws[..a]);
    Rejoins(ws, a);
    PositionalSplits(ws[..a], [ws[a]] + ws[a + 1..]);
    PositionalOne(ws[a], ws[a + 1..]);
    assert [] + Positional([ws[a]] + ws[a + 1..]) == Positional([ws[a]] + ws[a + 1..]);
  }

  lemma Rejoins(ws: seq<string>, a: nat)
    requires a < |ws|
    ensures ws[..a] + ([ws[a]] + ws[a + 1..]) == ws
  {
  }

  lemma PositionalOne(w: string, ws: seq<string>)
    requires !Dashed(w)
    ensures Positional([w] + ws) == [w] + Positional(ws)
  {
    PositionalSplits([w], ws);
    assert [w][..0] == [] && [w][0] == w;
    assert Positional([w]) == [] + [w];
  }

  /** The first word that is no option, if there is one. */
  lemma {:induction false} FirstUndashed(ws: seq<string>) returns (a: nat)
    requires exists i :: 0 <= i < |ws| && !Dashed(ws[i])
    ensures a < |ws| && !Dashed(ws[a]) && forall i :: 0 <= i < a ==> Dashed(ws[i])
  {
    if !Dashed(ws[0]) {
      a := 0;
    } else {
      var i :| 0 <= i < |ws| && !Dashed(ws[i]);
      assert ws[1..][i - 1] == ws[i];
      var b := FirstUndashed(ws[1..]);
      a := b + 1;
      forall j | 0 <= j < a ensures Dashed(ws[j]) {
        assert j > 0 ==> ws[1..][j - 1] == ws[j];
      }
    }
  }

  lemma AptWordsIff(words: seq<string>, k: nat)
    requires k < |words| && (words[k] == "apt" || words[k] == "apt-get")
    ensures AptAt(words, k) <==> Understood(words[k..][1..])
  {
    var rest := words[k..][1..];
    UnderstoodIff(rest);
    assert forall i :: 0 <= i < |rest| ==> rest[i] == words[k + 1 + i];
    forall w: string ensures HarmlessFlag(w) <==> w in HARMLESS {
      HarmlessIff(w);
    }
    if AptAt(words, k) {
      forall i | 0 <= i < |rest| ensures WordOk(rest[i]) {
        assert words[k + 1 + i] == rest[i];
      }
    }
    if forall i :: 0 <= i < |rest| ==> WordOk(rest[i]) {
      forall i | k < i < |words| ensures words[i] != "" && (words[i][0] == '-' ==> words[i] in HARMLESS) {
        assert WordOk(rest[i - k - 1]);
      }
    }
  }

  /** The parser sees an apt command exactly where there is one, with its action and the packages behind it. */
  lemma AptFound(words: seq<string>, k: nat, a: nat)
    requires AptAt(words, k) && ActionAt(words, k, a) && NamesPackage(words, a)
    ensures LiteralApt(words[k..]) == Some(Apt(words[a], Positional(words[a + 1..])))
  {
    AptWordsIff(words, k);
    AptPositional(words, k, a);
    SomePackage(words, a);
    var action, packages := words[a], Positional(words[a + 1..]);
    assert ([action] + packages)[1..] == packages;
  }

  lemma SomePackage(words: seq<string>, a: nat)
    requires NamesPackage(words, a)
    ensures a < |words| && Positional(words[a + 1..]) != []
  {
    var i :| a < i < |words| && !Dashed(words[i]);
    PositionalIff(words[a + 1..], words[i]);
    assert words[a + 1..][i - a - 1] == words[i];
  }

  lemma AptPositional(words: seq<string>, k: nat, a: nat)
    requires ActionAt(words, k, a)
    ensures Positional(words[k..][1..]) == [words[a]] + Positional(words[a + 1..])
  {
    var rest := words[k..][1..];
    var b := a - k - 1;
    assert rest[b] == words[a] && rest[b + 1..] == words[a + 1..];
    forall j | 0 <= j < b ensures Dashed(rest[j]) {
      assert rest[j] == words[k + 1 + j];
    }
    FirstPositional(rest, b);
  }

  lemma AptMissed(words: seq<string>, k: nat)
    requires k < |words| && LiteralApt(words[k..]).Some?
    ensures exists a :: 0 <= a < |words| && AptAt(words, k) && ActionAt(words, k, a) && NamesPackage(words, a)
  {
    var args := words[k..];
    var rest := args[1..];
    AptWordsIff(words, k);
    assert forall j :: 0 <= j < |rest| ==> rest[j] == words[k + 1 + j];
    if forall i :: 0 <= i < |rest| ==> Dashed(rest[i]) {
      OnlyOptions(rest);
    }
    var b := FirstUndashed(rest);
    FirstPositional(rest, b);
    var a := k + 1 + b;
    var p := Positional(rest)[1];
    assert p in Positional(rest[b + 1..]);
    PositionalIff(rest[b + 1..], p);
    var i :| 0 <= i < |rest[b + 1..]| && rest[b + 1..][i] == p && !Dashed(rest[b + 1..][i]);
    assert words[a + 1 + i] == p;
    assert forall j :: k < j < a ==> words[j] == rest[j - k - 1];
    assert ActionAt(words, k, a) && NamesPackage(words, a);
  }

  lemma PackageIff(words: seq<string>, a: nat, p: string)
    requires a < |words| && p != "" && !Dashed(p)
    ensures p in Positional(words[a + 1..]) <==> exists i :: a < i < |words| && words[i] == p
  {
    var ws := words[a + 1..];
    PositionalIff(ws, p);
    if i :| a < i < |words| && words[i] == p {
      assert ws[i - a - 1] == p;
    }
    if i :| 0 <= i < |ws| && ws[i] == p && !Dashed(ws[i]) {
      assert words[a + 1 + i] == p;
    }
  }

  lemma CurlSpelling(p: string)
    ensures CurlPackage(p) <==> p == "curl" || p == "curl+" || (|p| >= 5 && p[..5] == "curl=")
    ensures CurlPackage(p) ==> p != "" && !Dashed(p)
  {
    assert "curl=" <= p <==> |p| >= 5 && p[..5] == "curl=";
    if "curl=" <= p {
      assert p[0] == 'c';
    }
  }

  lemma CurlAskedIff(words: seq<string>, a: nat)
    requires a < |words|
    ensures AsksForCurl(words, a) <==> exists p :: p in Positional(words[a + 1..]) && CurlPackage(p)
    ensures AsksAgainstCurl(words, a) <==> "curl-" in Positional(words[a + 1..])
  {
    PackageIff(words, a, "curl-");
    if AsksForCurl(words, a) {
      var i :| a < i < |words| && (words[i] == "curl" || words[i] == "curl+" || (|words[i]| >= 5 && words[i][..5] == "curl="));
      CurlSpelling(words[i]);
      PackageIff(words, a, words[i]);
      assert words[i] in Positional(words[a + 1..]);
    }
    if p :| p in Positional(words[a + 1..]) && CurlPackage(p) {
      CurlSpelling(p);
      PackageIff(words, a, p);
      var i :| a < i < |words| && words[i] == p;
      assert AsksForCurl(words, a);
    }
  }

  /** The effect of an apt command, in terms of its words. */
  lemma AptEffectIs(words: seq<string>, k: nat, a: nat)
    requires AptAt(words, k) && ActionAt(words, k, a) && NamesPackage(words, a)
    ensures LiteralApt(words[k..]).Some?
    ensures AptEffect(LiteralApt(words[k..]).value) ==
            if AsksAgainstCurl(words, a) || (words[a] != "install" && AsksForCurl(words, a)) then RemovesCurl
            else if words[a] != "install" then Plain
            else if AsksForCurl(words, a) then InstallsCurl else InstallsOther
  {
    AptFound(words, k, a);
    CurlAskedIff(words, a);
  }

  lemma OneAction(words: seq<string>, k: nat, a: nat, b: nat)
    requires ActionAt(words, k, a) && ActionAt(words, k, b)
    ensures a == b
  {
  }

  // ----- the classification agrees -----

  lemma RunsIff(args: seq<Word>, k: nat, name: string)
    requires ProgramAt(Texts(args), k)
    ensures Runs(args, name) <==> Texts(args)[k] == name
  {
    if Runs(args, name) {
      var j :| 0 <= j < |args| && ProgramAt(Texts(args), j) && Texts(args)[j] == name;
      OneProgram(Texts(args), j, k);
    }
  }

  lemma AptName(w: string)
    requires w == "apt" || w == "apt-get"
    ensures w != "true" && w != ":" && w != "false" && w != "curl" && w != "/usr/bin/curl" && w != "/bin/curl"
  {
    Different("apt-get", "true");
    Different("apt-get", "curl");
    Different("apt-get", "/usr/bin/curl");
    Different("apt-get", "/bin/curl");
  }

  lemma NoProgramPlain(args: seq<Word>)
    requires forall k: nat :: !ProgramAt(Texts(args), k)
    ensures Deed(args) == Plain && EffectOf(args) == Plain
  {
    StrippedIsProgram(Texts(args));
  }

  /** The three means of an apt command cannot be told apart but by its one program and its one action. */
  lemma AptDeed(args: seq<Word>, k: nat, a: nat)
    requires AptCommand(args, k, a)
    ensures var words := Texts(args);
            && (MeansRemoval(args) <==> AsksAgainstCurl(words, a) || (words[a] != "install" && AsksForCurl(words, a)))
            && (MeansInstall(args) <==> words[a] == "install" && !AsksAgainstCurl(words, a) && AsksForCurl(words, a))
            && (MeansOtherInstall(args) <==> words[a] == "install" && !AsksAgainstCurl(words, a) && !AsksForCurl(words, a))
  {
    var words := Texts(args);
    forall j, b | 0 <= j < |args| && 0 <= b < |args| && AptCommand(args, j, b) ensures j == k && b == a {
      OneProgram(words, j, k);
      OneAction(words, k, a, b);
    }
  }

  lemma NoAptDeed(args: seq<Word>)
    requires forall k: nat, a: nat :: !AptCommand(args, k, a)
    ensures !MeansRemoval(args) && !MeansInstall(args) && !MeansOtherInstall(args)
  {
  }

  lemma NamedDeed(args: seq<Word>, k: nat)
    requires ProgramAt(Texts(args), k)
    ensures var name := Texts(args)[k];
            && (MeansSuccess(args) <==> name == "true" || name == ":") && (MeansFailure(args) <==> name == "false")
            && (MeansUse(args) <==> name == "curl" || name == "/usr/bin/curl" || name == "/bin/curl")
  {
    RunsIff(args, k, "true");
    RunsIff(args, k, ":");
    RunsIff(args, k, "false");
    RunsIff(args, k, "curl");
    RunsIff(args, k, "/usr/bin/curl");
    RunsIff(args, k, "/bin/curl");
  }

  /** The classification of every command is what the command does. */
  lemma EffectIsDeed(args: seq<Word>)
    ensures EffectOf(args) == Deed(args)
  {
    var words := Texts(args);
    StrippedIsProgram(words);
    if k: nat :| ProgramAt(words, k) {
      NamedDeed(args, k);
      if exists a: nat :: AptCommand(args, k, a) {
        var a: nat :| AptCommand(args, k, a);
        AptName(Texts(args)[k]);
        AptDeed(args, k, a);
        AptEffectIs(words, k, a);
      } else {
        ProgramWithoutApt(args, k);
      }
    } else {
      NoProgramPlain(args);
    }
  }

  lemma ProgramWithoutApt(args: seq<Word>, k: nat)
    requires ProgramAt(Texts(args), k) && forall a: nat :: !AptCommand(args, k, a)
    ensures AllLiteral(args) ==> LiteralApt(Texts(args)[k..]).None?
    ensures !MeansRemoval(args) && !MeansInstall(args) && !MeansOtherInstall(args)
  {
    var words := Texts(args);
    if AllLiteral(args) && LiteralApt(words[k..]).Some? {
      AptMissed(words, k);
      var a :| 0 <= a < |words| && AptAt(words, k) && ActionAt(words, k, a) && NamesPackage(words, a);
      assert AptCommand(args, k, a);
    }
    forall j: nat, a: nat ensures !AptCommand(args, j, a) {
      if AptCommand(args, j, a) {
        OneProgram(words, j, k);
      }
    }
    NoAptDeed(args);
  }

  // ----- which commands are classified how -----

  lemma DisjointMeanings(args: seq<Word>)
    ensures MeansSuccess(args) || MeansFailure(args) || MeansUse(args) ==> !MeansRemoval(args) && !MeansInstall(args) && !MeansOtherInstall(args)
    ensures !(MeansSuccess(args) && MeansFailure(args)) && !(MeansSuccess(args) && MeansUse(args)) && !(MeansFailure(args) && MeansUse(args))
    ensures !(MeansRemoval(args) && MeansInstall(args)) && !(MeansRemoval(args) && MeansOtherInstall(args))
    ensures !(MeansInstall(args) && MeansOtherInstall(args))
  {
    if k: nat :| ProgramAt(Texts(args), k) {
      NamedDeed(args, k);
      if exists a: nat :: AptCommand(args, k, a) {
        var a: nat :| AptCommand(args, k, a);
        AptName(Texts(args)[k]);
        AptDeed(args, k, a);
      } else {
        ProgramWithoutApt(args, k);
      }
    }
  }

  /** For every command, each classification holds if and only if the words mean it. */
  lemma ClassifiedIff(args: seq<Word>)
    ensures EffectOf(args) == Succeeds <==> MeansSuccess(args)
    ensures EffectOf(args) == Fails <==> MeansFailure(args)
    ensures EffectOf(args) == UsesCurl <==> MeansUse(args)
    ensures EffectOf(args) == RemovesCurl <==> MeansRemoval(args)
    ensures EffectOf(args) == InstallsCurl <==> MeansInstall(args)
    ensures EffectOf(args) == InstallsOther <==> MeansOtherInstall(args)
  {
    EffectIsDeed(args);
    DisjointMeanings(args);
  }
}
