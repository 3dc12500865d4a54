/**
  What a shell makes of a plain command, and when the argument parser agrees with it: a shell
  takes leading unquoted name=value words for assignments, an unquoted reserved word in first
  place for syntax, and runs some utilities itself, however their name is quoted, instead of a
  program of that name (sections 2.4, 2.9.1, 2.10.2 and 2.14 of the POSIX.1-2017 Shell Command
  Language).
  */
module ShellReading {
  import opened Wrappers
  import opened ShellQuote

  type Token = seq<Piece>

  /** Whole words, and the one being read. */
  datatype Splitting = Splitting(words: seq<Token>, word: Token)

  function Split(t: Splitting, p: Piece): (r: Splitting) {
    if !p.Space? then Splitting(t.words, t.word + [p])
    else if t.word == [] then t
    else Splitting(t.words + [t.word], [])
  }

  function SplitAll(ps: seq<Piece>): (t: Splitting) {
    if ps == [] then Splitting([], []) else Split(SplitAll(ps[..|ps| - 1]), ps[|ps| - 1])
  }

  /** The words of a plain command, still as they were quoted. */
  function TokensOf(ps: seq<Piece>): (words: seq<Token>) {
    var t := SplitAll(ps);
    if t.word == [] then t.words else t.words + [t.word]
  }

  function Content(p: Piece): (s: string) {
    match p
    case Space(_) => []
    case Literal(c) => [c]
    case Segment(_, text) => text
  }

  /** A word with its quotes removed. */
  function Unquoted(word: Token): (s: string) {
    if word == [] then [] else Unquoted(word[..|word| - 1]) + Content(word[|word| - 1])
  }

  function AllUnquoted(words: seq<Token>): (r: seq<string>)
    ensures |r| == |words| && forall i :: 0 <= i < |words| ==> r[i] == Unquoted(words[i])
  {
    seq(|words|, i requires 0 <= i < |words| => Unquoted(words[i]))
  }

  // ----- the shell -----

  /** Operators, expansions, escapes, patterns, and the characters that can make a word syntax, a home directory or a comment. */
  predicate ShellCharacter(c: char) {
    || c == '|' || c == '&' || c == ';' || c == '<' || c == '>' || c == '(' || c == ')' || c == '\n' || c == '\r'
    || c == '$' || c == '`' || c == '\\'
    || c == '*' || c == '?' || c == '[' || c == ']'
    || c == '{' || c == '}' || c == '!' || c == '~' || c == '#'
  }

  /** A literal character of a plain command is no blank, no quote and nothing a shell would act on. */
  lemma LiteralIff(c: char)
    ensures Plain(Literal(c)) <==> c != ' ' && c != '\t' && c != '\'' && c != '"' && !ShellCharacter(c)
  {
  }

  /** A double-quoted segment of a plain command has nothing that would be expanded there, and no segment its own quote. */
  lemma SegmentIff(q: char, text: string)
    ensures Plain(Segment(q, text)) <==>
            (q == '\'' && '\'' !in text) || (q == '"' && '"' !in text && '$' !in text && '`' !in text && '\\' !in text)
  {
  }

  predicate NameStart(c: char) {
    'a' <= c <= 'z' || 'A' <= c <= 'Z' || c == '_'
  }

  predicate NameChar(c: char) {
    NameStart(c) || '0' <= c <= '9'
  }

  /** An unquoted name and an unquoted equals sign lead the word. */
  predicate AssignsAt(word: Token, k: nat) {
    && 0 < k < |word| && word[k] == Literal('=')
    && word[0].Literal? && NameStart(word[0].c)
    && forall i :: 0 <= i < k ==> word[i].Literal? && NameChar(word[i].c)
  }

  ghost predicate Assignment(word: Token) {
    exists k :: AssignsAt(word, k)
  }

  /** The words a shell takes for syntax, and the utilities it runs itself. */
  datatype Shell = Shell(reserved: set<string>, builtins: set<string>)

  const SPECIAL: set<string> :=
    {"break", ":", "continue", ".", "eval", "exec", "exit", "export", "readonly", "return", "set", "shift", "times",
     "trap", "unset"}

  /** Utilities found without a search of the path. */
  const INTRINSIC: set<string> :=
    {"alias", "bg", "cd", "command", "false", "fc", "fg", "getopts", "hash", "jobs", "kill", "newgrp", "pwd", "read",
     "true", "type", "ulimit", "umask", "unalias", "wait"}

  /** What the standard prescribes; an actual shell may have more of both. */
  const POSIX := Shell({"case", "do", "done", "elif", "else", "esac", "fi", "for", "if", "in", "then", "until", "while"},
                       SPECIAL + INTRINSIC)

  predicate Reserved(sh: Shell, word: Token) {
    (forall i :: 0 <= i < |word| ==> word[i].Literal?) && Unquoted(word) in sh.reserved
  }

  predicate Builtin(sh: Shell, words: seq<Token>) {
    words != [] && Unquoted(words[0]) in sh.builtins
  }

  ghost function BehindAssignments(words: seq<Token>): (r: seq<Token>)
    ensures |r| <= |words|
  {
    if words != [] && Assignment(words[0]) then BehindAssignments(words[1..]) else words
  }

  /** The program a shell would start, with its arguments; none when the command is syntax or a utility of its own. */
  ghost function ShellArgv(sh: Shell, words: seq<Token>): (r: Option<seq<string>>) {
    if words != [] && Reserved(sh, words[0]) then None
    else if Builtin(sh, BehindAssignments(words)) then None
    else Some(AllUnquoted(BehindAssignments(words)))
  }

  // ----- the parser reads the same words -----

  lemma UnquotedSnoc(word: Token, p: Piece)
    ensures Unquoted(word + [p]) == Unquoted(word) + Content(p)
  {
    assert (word + [p])[..|word|] == word;
  }

  lemma AllUnquotedSnoc(words: seq<Token>, word: Token)
    ensures AllUnquoted(words + [word]) == AllUnquoted(words) + [Unquoted(word)]
  {
  }

  ghost predicate Agree(r: Reading, t: Splitting) {
    r == Reading(AllUnquoted(t.words), Unquoted(t.word), t.word != [])
  }

  lemma SplitAgrees(r: Reading, t: Splitting, p: Piece)
    requires Agree(r, t)
    ensures Agree(Fed(r, p), Split(t, p))
  {
    UnquotedSnoc(t.word, p);
    AllUnquotedSnoc(t.words, t.word);
  }

  lemma {:induction false} ReadsTokens(ps: seq<Piece>)
    ensures Agree(FedAll(NOTHING, ps), SplitAll(ps))
  {
    if ps == [] {
      assert AllUnquoted([]) == [];
    } else {
      ReadsTokens(ps[..|ps| - 1]);
      SplitAgrees(FedAll(NOTHING, ps[..|ps| - 1]), SplitAll(ps[..|ps| - 1]), ps[|ps| - 1]);
    }
  }

  /** The parser's arguments are the words of the command with their quotes removed. */
  lemma WordsOf(command: string, argv: seq<string>, ps: seq<Piece>)
    requires Reads(command, argv, ps)
    ensures argv == AllUnquoted(TokensOf(ps))
  {
    ReadsTokens(ps);
    AllUnquotedSnoc(SplitAll(ps).words, SplitAll(ps).word);
  }

  // ----- when the two agree -----

  /**
    For every shell, the parser's answer to a plain command is the program that shell would
    start if and only if the first word is not an unquoted assignment, not an unquoted reserved
    word, and not, quoted or unquoted, a utility the shell runs itself.
    */
  lemma SameAsShellIff(sh: Shell, command: string, argv: seq<string>, ps: seq<Piece>)
    requires Answers(command, Some(argv)) && Reads(command, argv, ps)
    ensures var words := TokensOf(ps);
            && words != []
            && (ShellArgv(sh, words) == Some(argv) <==>
                !Assignment(words[0]) && !Reserved(sh, words[0]) && Unquoted(words[0]) !in sh.builtins)
  {
    WordsOf(command, argv, ps);
    var words := TokensOf(ps);
    if Assignment(words[0]) {
      assert |AllUnquoted(BehindAssignments(words))| < |argv|;
    }
  }

  lemma {:induction false} FirstToken(ps: seq<Piece>)
    requires ps != [] && !ps[0].Space?
    ensures TokensOf(ps) != [] && TokensOf(ps)[0] != [] && TokensOf(ps)[0][0] == ps[0]
    ensures SplitAll(ps).words != [] ==> SplitAll(ps).words[0] != [] && SplitAll(ps).words[0][0] == ps[0]
    ensures SplitAll(ps).words == [] ==> SplitAll(ps).word != [] && SplitAll(ps).word[0] == ps[0]
  {
    if |ps| == 1 {
      assert ps[..0] == [];
    } else {
      FirstToken(ps[..|ps| - 1]);
    }
  }

  lemma QuoteStarts(s: string, run: string)
    ensures QuotePieces(run, s) != [] && QuotePieces(run, s)[0].Segment?
    decreases |s|
  {
  }

  lemma QuotedReads(args: seq<string>)
    requires args != [] && args[0] != []
    ensures Reads(Fragment(args), args, ArgPieces(args)) && Answers(Fragment(args), Some(args))
    ensures ArgPieces(args) != [] && ArgPieces(args)[0].Segment?
  {
    ArgsRender(args);
    ArgsFeed([], args);
    assert [] + args == args;
    assert Reads(Fragment(args), args, ArgPieces(args));
    QuoteStarts(args[0], []);
  }

  /** Quoting rules out assignments and syntax, so what is left to go wrong is a utility of the shell. */
  lemma QuotedIsSameAsShellIff(sh: Shell, args: seq<string>)
    requires args != [] && args[0] != []
    ensures ShellArgv(sh, TokensOf(ArgPieces(args))) == Some(args) <==> args[0] !in sh.builtins
  {
    var ps := ArgPieces(args);
    QuotedReads(args);
    FirstToken(ps);
    WordsOf(Fragment(args), args, ps);
    SameAsShellIff(sh, Fragment(args), args, ps);
    assert !Assignment(TokensOf(ps)[0]) && !Reserved(sh, TokensOf(ps)[0]);
  }

  // ----- three commands that are read otherwise -----

  /** `A=` is an assignment to a shell, which then runs nothing; the parser runs it. */
  lemma AssignmentIsRun(ps: seq<Piece>)
    requires ps == [Literal('A'), Literal('=')]
    ensures TokensOf(ps) == [ps] && Assignment(ps)
    ensures ShellArgv(POSIX, TokensOf(ps)) == Some([]) && AllUnquoted(TokensOf(ps)) == [['A', '=']]
  {
    Letters('A', '=', ps);
    assert AssignsAt(ps, 1);
    assert Unquoted(ps) != [] && Unquoted(ps)[0] == 'A';
    assert forall w :: w in POSIX.reserved ==> w[0] != 'A';
  }

  /** `if` is syntax to a shell; the parser runs it. */
  lemma KeywordIsRun(ps: seq<Piece>)
    requires ps == [Literal('i'), Literal('f')]
    ensures TokensOf(ps) == [ps] && Reserved(POSIX, ps) && ShellArgv(POSIX, TokensOf(ps)).None? && AllUnquoted(TokensOf(ps)) == ["if"]
  {
    Letters('i', 'f', ps);
    assert ['i', 'f'] == "if";
  }

  /** `'exit' '3'` ends a shell with status 3; the parser runs a program named exit, quoted though it is. */
  lemma BuiltinIsRun(args: seq<string>)
    requires args == ["exit", "3"]
    ensures Answers(Fragment(args), Some(args)) && ShellArgv(POSIX, TokensOf(ArgPieces(args))).None?
  {
    QuotedReads(args);
    QuotedIsSameAsShellIff(POSIX, args);
    var ps := ArgPieces(args);
    FirstToken(ps);
    WordsOf(Fragment(args), args, ps);
    var words := TokensOf(ps);
    assert !Assignment(words[0]) && BehindAssignments(words) == words;
  }

  lemma Letters(a: char, b: char, ps: seq<Piece>)
    requires ps == [Literal(a), Literal(b)]
    ensures TokensOf(ps) == [ps] && Unquoted(ps) == [a, b]
  {
    assert ps[..1] == [Literal(a)] && ps[..1][..0] == [];
    assert SplitAll(ps[..1]) == Splitting([], [Literal(a)]);
    assert Unquoted(ps[..1]) == [a];
  }
}
