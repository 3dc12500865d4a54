/**
  The shell quoter and its inverse: a command that is provably a plain list of words is
  turned into its arguments, and anything else is left to a shell.
  */
module ShellQuote {
  import opened Wrappers

  const INTERPRETED: string := "$`\\|&;<>()!*?[]{}~#\n\r"

  predicate Blank(c: char) { c == ' ' || c == '\t' }

  predicate Quote(c: char) { c == '\'' || c == '"' }

  /** What a double-quoted segment may not hold: the shell would expand it. */
  predicate Expands(s: string) { '$' in s || '`' in s || '\\' in s }

  // ----- quoting -----

  function EscapedChar(c: char): (r: string) {
    if c == '\'' then ['\'', '"', '\'', '"', '\''] else [c]
  }

  function Escaped(s: string): (r: string) {
    if s == [] then [] else EscapedChar(s[0]) + Escaped(s[1..])
  }

  function Quoted(s: string): (r: string) {
    ['\''] + Escaped(s) + ['\'']
  }

  /** Every argument quoted, one blank between two. */
  function Fragment(args: seq<string>): (r: string) {
    if args == [] then []
    else if |args| == 1 then Quoted(args[0])
    else Quoted(args[0]) + ([' '] + Fragment(args[1..]))
  }

  lemma {:induction false} FragmentSnoc(args: seq<string>, a: string)
    requires args != []
    ensures Fragment(args + [a]) == Fragment(args) + ([' '] + Quoted(a))
  {
    assert (args + [a])[1..] == args[1..] + [a];
    if |args| == 1 {
      assert args[1..] + [a] == [a];
    } else {
      FragmentSnoc(args[1..], a);
      Associates([' '], Fragment(args[1..]), [' '] + Quoted(a));
      Associates(Quoted(args[0]), [' '] + Fragment(args[1..]), [' '] + Quoted(a));
    }
  }

  method ShellArgsFragment(args: seq<string>) returns (r: string)
    ensures r == Fragment(args)
  {
    r := [];
    for i := 0 to |args|
      invariant r == Fragment(args[..i])
    {
      var quoted := Quoted(args[i]);
      assert args[..i + 1] == args[..i] + [args[i]];
      if i == 0 {
        r := quoted;
      } else {
        FragmentSnoc(args[..i], args[i]);
        r := r + ([' '] + quoted);
      }
    }
    assert args[..|args|] == args;
  }

  // ----- what a plain command is -----

  /** The pieces of a plain command: a blank, a literal character, or a quoted segment. */
  datatype Piece = Space(c: char) | Literal(c: char) | Segment(q: char, text: string)

  predicate Plain(p: Piece) {
    match p
    case Space(c) => Blank(c)
    case Literal(c) => !Blank(c) && !Quote(c) && c !in INTERPRETED
    case Segment(q, text) => Quote(q) && q !in text && (q == '"' ==> !Expands(text))
  }

  ghost predicate AllPlain(ps: seq<Piece>) {
    forall p :: p in ps ==> Plain(p)
  }

  function Text(p: Piece): (s: string) {
    match p
    case Space(c) => [c]
    case Literal(c) => [c]
    case Segment(q, text) => [q] + text + [q]
  }

  function Rendered(ps: seq<Piece>): (s: string) {
    if ps == [] then [] else Text(ps[0]) + Rendered(ps[1..])
  }

  /** The words read so far, the word being read, and whether one is being read. */
  datatype Reading = Reading(argv: seq<string>, word: string, started: bool)

  function Fed(r: Reading, p: Piece): (t: Reading) {
    match p
    case Space(c) => if r.started then Reading(r.argv + [r.word], [], false) else r
    case Literal(c) => Reading(r.argv, r.word + [c], true)
    case Segment(q, text) => Reading(r.argv, r.word + text, true)
  }

  function FedAll(r: Reading, ps: seq<Piece>): (t: Reading)
    decreases |ps|
  {
    if ps == [] then r else Fed(FedAll(r, ps[..|ps| - 1]), ps[|ps| - 1])
  }

  function Ended(r: Reading): (argv: seq<string>) {
    if r.started then r.argv + [r.word] else r.argv
  }

  const NOTHING: Reading := Reading([], [], false)

  /** These plain pieces spell the command, and blanks separate their text into these words. */
  ghost predicate Reads(command: string, argv: seq<string>, ps: seq<Piece>) {
    AllPlain(ps) && Rendered(ps) == command && Ended(FedAll(NOTHING, ps)) == argv
  }

  /** The right answer: the words of a plain command that names a program, and none for any other text. */
  ghost predicate Answers(command: string, r: Option<seq<string>>) {
    match r
    case Some(argv) => argv != [] && argv[0] != [] && exists ps :: Reads(command, argv, ps)
    case None => forall argv, ps :: Reads(command, argv, ps) ==> argv == [] || argv[0] == []
  }

  // ----- a plain command is read in one way -----

  lemma Associates<T>(a: seq<T>, b: seq<T>, c: seq<T>)
    ensures a + (b + c) == a + b + c
  {
  }

  lemma RenderedCons(p: Piece, ps: seq<Piece>)
    ensures Rendered([p] + ps) == Text(p) + Rendered(ps)
  {
    assert ([p] + ps)[1..] == ps;
  }

  lemma {:induction false} RenderedConcat(a: seq<Piece>, b: seq<Piece>)
    ensures Rendered(a + b) == Rendered(a) + Rendered(b)
  {
    if a == [] {
      assert a + b == b && Rendered(a) == [];
    } else {
      var p, t := a[0], a[1..];
      assert a == [p] + t && a + b == [p] + (t + b);
      RenderedCons(p, t + b);
      RenderedCons(p, t);
      RenderedConcat(t, b);
      Associates(Text(p), Rendered(t), Rendered(b));
    }
  }

  /** Two plain pieces at the front of the same text are the same piece. */
  lemma LeadIsUnique(p: Piece, q: Piece, x: string, y: string)
    requires Plain(p) && Plain(q) && Text(p) + x == Text(q) + y
    ensures p == q && x == y
  {
    var s := Text(p) + x;
    assert s[0] == Text(p)[0] && s[0] == Text(q)[0];
    if p.Segment? {
      SegmentIsUnique(p.q, p.text, q.text, x, y);
    } else {
      assert s[1..] == x && s[1..] == y;
    }
  }

  lemma SegmentIsUnique(c: char, a: string, b: string, x: string, y: string)
    requires c !in a && c !in b && [c] + a + [c] + x == [c] + b + [c] + y
    ensures a == b && x == y
  {
    var s, t := [c] + a + [c] + x, [c] + b + [c] + y;
    assert s[|a| + 1] == c && t[|b| + 1] == c;
    assert forall i :: 0 <= i < |a| ==> s[i + 1] == a[i] && a[i] in a;
    assert forall i :: 0 <= i < |b| ==> t[i + 1] == b[i] && b[i] in b;
    assert |a| == |b|;
    assert s[|a| + 2..] == x && t[|b| + 2..] == y;
    assert s[1..|a| + 1] == a && t[1..|b| + 1] == b;
  }

  /** Plain commands that agree on a text's beginning agree on its first piece. */
  lemma SameFirst(d: Piece, done: seq<Piece>, p: Piece, ps: seq<Piece>, rest: string)
    requires Plain(d) && Plain(p) && Rendered([p] + ps) == Rendered([d] + done) + rest
    ensures d == p && Rendered(ps) == Rendered(done) + rest
  {
    RenderedCons(d, done);
    RenderedCons(p, ps);
    Associates(Text(d), Rendered(done), rest);
    LeadIsUnique(d, p, Rendered(done) + rest, Rendered(ps));
  }

  lemma SpellsSomething(p: Piece, ps: seq<Piece>)
    ensures |Rendered([p] + ps)| > 0
  {
    RenderedCons(p, ps);
  }

  /** Pieces that spell a beginning of a plain command are the command's first pieces. */
  lemma {:induction false} Continues(done: seq<Piece>, ps: seq<Piece>, rest: string)
    requires AllPlain(done) && AllPlain(ps) && Rendered(ps) == Rendered(done) + rest
    ensures |done| <= |ps| && ps[..|done|] == done && Rendered(ps[|done|..]) == rest
  {
    if done == [] {
      assert Rendered(done) + rest == rest && ps[0..] == ps;
    } else {
      var d, more := done[0], done[1..];
      assert done == [d] + more;
      SpellsSomething(d, more);
      assert ps != [];
      var p, left := ps[0], ps[1..];
      assert ps == [p] + left;
      SameFirst(d, more, p, left, rest);
      Continues(more, left, rest);
      assert ps[|done|..] == left[|more|..];
    }
  }

  lemma ReadingIsUnique(a: seq<Piece>, b: seq<Piece>)
    requires AllPlain(a) && AllPlain(b) && Rendered(a) == Rendered(b)
    ensures a == b
  {
    assert Rendered(a) + [] == Rendered(b);
    Continues(a, b, []);
    assert b == b[..|a|] + b[|a|..];
  }

  // ----- the parser -----

  /** Where the scan stands: plain pieces spell what has been read, and give the words so far. */
  ghost predicate ReadTo(command: string, index: nat, done: seq<Piece>, r: Reading) {
    index <= |command| && AllPlain(done) && Rendered(done) == command[..index] && FedAll(NOTHING, done) == r
  }

  lemma Advance(command: string, index: nat, done: seq<Piece>, r: Reading, p: Piece)
    requires ReadTo(command, index, done, r) && Plain(p)
    requires index + |Text(p)| <= |command| && command[index..index + |Text(p)|] == Text(p)
    ensures ReadTo(command, index + |Text(p)|, done + [p], Fed(r, p))
  {
    RenderedConcat(done, [p]);
    assert [p] == [p] + [];
    RenderedCons(p, []);
    assert command[..index + |Text(p)|] == command[..index] + command[index..index + |Text(p)|];
    assert (done + [p])[..|done|] == done;
  }

  /** Text at which no plain piece begins is not part of any plain command. */
  lemma Stops(command: string, index: nat, done: seq<Piece>, r: Reading)
    requires ReadTo(command, index, done, r) && index < |command|
    requires forall p :: Plain(p) ==> !(Text(p) <= command[index..])
    ensures Answers(command, None)
  {
    forall argv, ps | Reads(command, argv, ps) ensures false {
      assert command == command[..index] + command[index..];
      Continues(done, ps, command[index..]);
    }
  }

  lemma LeadsQuoted(p: Piece, s: string)
    requires Plain(p) && s != [] && Quote(s[0]) && Text(p) <= s
    ensures p.Segment? && p.q == s[0]
  {
    assert Text(p)[0] == s[0];
  }

  /** Without a closing quote no plain piece begins here. */
  lemma NoClosingQuote(s: string, p: Piece)
    requires s != [] && Quote(s[0]) && s[0] !in s[1..] && Plain(p)
    ensures !(Text(p) <= s)
  {
    if p.Segment? && |p.text| + 2 <= |s| {
      assert s[|p.text| + 1] == s[1..][|p.text|] && Text(p)[|p.text| + 1] == p.q && Text(p)[0] == p.q;
    }
  }

  lemma StartsPlain(command: string, index: nat, p: Piece)
    requires index < |command| && Plain(p) && !Blank(command[index]) && !Quote(command[index]) && command[index] in INTERPRETED
    ensures !(Text(p) <= command[index..])
  {
    var first := Text(p)[0];
    assert Blank(first) || Quote(first) || first !in INTERPRETED;
  }

  /** The segment up to the closing quote is the only piece that can begin here. */
  lemma OnlySegment(s: string, text: string, p: Piece)
    requires s != [] && Quote(s[0]) && s[0] !in text && [s[0]] + text + [s[0]] <= s
    requires Plain(p) && Text(p) <= s
    ensures p == Segment(s[0], text)
  {
    var mine := [s[0]] + text + [s[0]];
    LeadsQuoted(p, s);
    assert s == Text(p) + s[|Text(p)|..];
    assert s == mine + s[|mine|..];
    SegmentIsUnique(s[0], p.text, text, s[|Text(p)|..], s[|mine|..]);
  }

  lemma NoSegment(s: string, k: nat, p: Piece)
    requires s != [] && Quote(s[0]) && k < |s| && s[0] !in s[1..][..k] && Plain(p)
    requires k == |s| - 1 || (s[k + 1] == s[0] && s[0] == '"' && Expands(s[1..k + 1]))
    ensures !(Text(p) <= s)
  {
    if k == |s| - 1 {
      assert s[1..][..k] == s[1..];
      NoClosingQuote(s, p);
    } else if Text(p) <= s {
      assert s[1..][..k] == s[1..k + 1];
      assert s[..k + 2] == [s[0]] + s[1..k + 1] + [s[0]];
      OnlySegment(s, s[1..k + 1], p);
    }
  }

  function IndexOf(c: char, s: string): (k: nat)
    ensures k <= |s| && (k < |s| ==> s[k] == c) && c !in s[..k]
  {
    if s == [] || s[0] == c then 0
    else
      var k := 1 + IndexOf(c, s[1..]);
      assert s[..k] == [s[0]] + s[1..][..k - 1];
      k
  }

  /** A quoted segment that begins at `index`: where it ends, if it is plain. */
  method TakeSegment(command: string, index: nat, ghost done: seq<Piece>, ghost r: Reading) returns (end: Option<nat>)
    requires index < |command| && Quote(command[index]) && ReadTo(command, index, done, r)
    ensures end.None? ==> Answers(command, None)
    ensures end.Some? ==> index < end.value < |command|
    ensures end.Some? ==> ReadTo(command, end.value + 1, done + [Segment(command[index], command[index + 1..end.value])],
                                 Reading(r.argv, r.word + command[index + 1..end.value], true))
  {
    var k := IndexOf(command[index], command[index + 1..]);
    CloseAt(command, index, k);
    if k == |command| - index - 1 || (command[index] == '"' && Expands(command[index + 1..index + 1 + k])) {
      SegmentStops(command, index, k, done, r);
      return None;
    }
    SegmentAt(command, index, k, done, r);
    end := Some(index + 1 + k);
  }

  lemma CloseAt(command: string, index: nat, k: nat)
    requires index < |command| && k == IndexOf(command[index], command[index + 1..])
    ensures index + k < |command| && command[index] !in command[index + 1..][..k]
    ensures index + k + 1 < |command| ==> command[index + k + 1] == command[index]
  {
  }

  lemma SegmentStops(command: string, index: nat, k: nat, done: seq<Piece>, r: Reading)
    requires ReadTo(command, index, done, r) && index + k < |command| && Quote(command[index])
    requires command[index] !in command[index + 1..][..k]
    requires k == |command| - index - 1 ||
             (command[index + k + 1] == command[index] && command[index] == '"' && Expands(command[index + 1..index + 1 + k]))
    ensures Answers(command, None)
  {
    var s := command[index..];
    assert s[1..] == command[index + 1..];
    assert k < |s| - 1 ==> s[1..k + 1] == command[index + 1..index + 1 + k];
    forall p | Plain(p) ensures !(Text(p) <= s) {
      NoSegment(s, k, p);
    }
    Stops(command, index, done, r);
  }

  lemma SegmentAt(command: string, index: nat, k: nat, done: seq<Piece>, r: Reading)
    requires ReadTo(command, index, done, r) && index + k + 1 < |command| && Quote(command[index])
    requires command[index] !in command[index + 1..][..k] && command[index + k + 1] == command[index]
    requires command[index] == '"' ==> !Expands(command[index + 1..index + 1 + k])
    ensures ReadTo(command, index + k + 2, done + [Segment(command[index], command[index + 1..index + 1 + k])],
                   Reading(r.argv, r.word + command[index + 1..index + 1 + k], true))
  {
    var c, text := command[index], command[index + 1..index + 1 + k];
    assert text == command[index + 1..][..k];
    assert command[index..index + k + 2] == [c] + text + [c];
    Advance(command, index, done, r, Segment(c, text));
  }

  method ArgvFromQuotedCommand(command: string) returns (r: Option<seq<string>>)
    ensures Answers(command, r)
  {
    var argv: seq<string> := [];
    var word: string := [];
    var started := false;
    var index := 0;
    ghost var done: seq<Piece> := [];
    while index < |command|
      invariant ReadTo(command, index, done, Reading(argv, word, started))
    {
      var c := command[index];
      ghost var now := Reading(argv, word, started);
      if c == ' ' || c == '\t' {
        Advance(command, index, done, now, Space(c));
        done := done + [Space(c)];
        if started {
          argv, word, started := argv + [word], [], false;
        }
        index := index + 1;
      } else if c == '\'' || c == '"' {
        var end := TakeSegment(command, index, done, now);
        if end.None? {
          return None;
        }
        done := done + [Segment(c, command[index + 1..end.value])];
        word, started := word + command[index + 1..end.value], true;
        index := end.value + 1;
      } else {
        if c in INTERPRETED {
          forall p | Plain(p) ensures !(Text(p) <= command[index..]) {
            StartsPlain(command, index, p);
          }
          Stops(command, index, done, now);
          return None;
        }
        Advance(command, index, done, now, Literal(c));
        done := done + [Literal(c)];
        word, started := word + [c], true;
        index := index + 1;
      }
    }
    assert command[..index] == command;
    if started {
      argv := argv + [word];
    }
    assert Reads(command, argv, done);
    if |argv| == 0 || argv[0] == [] {
      OnlyReading(command, argv, done);
      return None;
    }
    return Some(argv);
  }

  lemma OnlyReading(command: string, argv: seq<string>, ps: seq<Piece>)
    requires Reads(command, argv, ps)
    ensures forall words, qs :: Reads(command, words, qs) ==> words == argv && qs == ps
  {
    forall words, qs | Reads(command, words, qs) ensures words == argv && qs == ps {
      ReadingIsUnique(ps, qs);
    }
  }

  // ----- round trip -----

  /** Quoting as pieces: single-quoted runs, and each single quote in double quotes. */
  function QuotePieces(run: string, s: string): (ps: seq<Piece>)
    decreases |s|
  {
    if s == [] then [Segment('\'', run)]
    else if s[0] == '\'' then [Segment('\'', run)] + ([Segment('"', ['\''])] + QuotePieces([], s[1..]))
    else QuotePieces(run + [s[0]], s[1..])
  }

  /** Leaving the single quotes, quoting one in double quotes, and entering them again. */
  lemma Requotes(run: string, e: string)
    ensures Text(Segment('\'', run)) + (Text(Segment('"', ['\''])) + (['\''] + [] + e + ['\'']))
         == ['\''] + run + (EscapedChar('\'') + e) + ['\'']
  {
  }

  lemma {:induction false} QuoteRenders(run: string, s: string)
    requires '\'' !in run
    ensures Rendered(QuotePieces(run, s)) == ['\''] + run + Escaped(s) + ['\''] && AllPlain(QuotePieces(run, s))
    decreases |s|
  {
    if s == [] {
      assert [Segment('\'', run)] == [Segment('\'', run)] + [];
      RenderedCons(Segment('\'', run), []);
    } else if s[0] == '\'' {
      QuoteRenders([], s[1..]);
      RenderedCons(Segment('"', ['\'']), QuotePieces([], s[1..]));
      RenderedCons(Segment('\'', run), [Segment('"', ['\''])] + QuotePieces([], s[1..]));
      Requotes(run, Escaped(s[1..]));
    } else {
      QuoteRenders(run + [s[0]], s[1..]);
      Associates(['\''], run, [s[0]]);
      Associates(['\''] + run, [s[0]], Escaped(s[1..]));
    }
  }

  lemma {:induction false} FedConcat(r: Reading, a: seq<Piece>, b: seq<Piece>)
    ensures FedAll(r, a + b) == FedAll(FedAll(r, a), b)
    decreases |b|
  {
    if b == [] {
      assert a + b == a;
    } else {
      var n := |b| - 1;
      FedConcat(r, a, b[..n]);
      assert (a + b)[..|a + b| - 1] == a + b[..n];
    }
  }

  lemma FedCons(r: Reading, p: Piece, ps: seq<Piece>)
    ensures FedAll(r, [p] + ps) == FedAll(Fed(r, p), ps)
  {
    FedConcat(r, [p], ps);
    assert [p][..0] == [];
    assert FedAll(r, []) == r;
  }

  /** Feeding a quoted word appends exactly the word. */
  lemma {:induction false} QuoteFeeds(r: Reading, run: string, s: string)
    ensures FedAll(r, QuotePieces(run, s)) == Reading(r.argv, r.word + run + s, true)
    decreases |s|
  {
    if s == [] {
      assert [Segment('\'', run)] == [Segment('\'', run)] + [];
      FedCons(r, Segment('\'', run), []);
      assert r.word + run + s == r.word + run;
    } else if s[0] == '\'' {
      var mid := Fed(Fed(r, Segment('\'', run)), Segment('"', ['\'']));
      FedCons(r, Segment('\'', run), [Segment('"', ['\''])] + QuotePieces([], s[1..]));
      FedCons(Fed(r, Segment('\'', run)), Segment('"', ['\'']), QuotePieces([], s[1..]));
      QuoteFeeds(mid, [], s[1..]);
      assert r.word + run + ['\''] + [] + s[1..] == r.word + run + s;
    } else {
      QuoteFeeds(r, run + [s[0]], s[1..]);
      assert r.word + (run + [s[0]]) + s[1..] == r.word + run + s;
    }
  }

  function ArgPieces(args: seq<string>): (ps: seq<Piece>) {
    if args == [] then []
    else if |args| == 1 then QuotePieces([], args[0])
    else QuotePieces([], args[0]) + ([Space(' ')] + ArgPieces(args[1..]))
  }

  lemma {:induction false} ArgsRender(args: seq<string>)
    ensures Rendered(ArgPieces(args)) == Fragment(args) && AllPlain(ArgPieces(args))
  {
    if args != [] {
      QuoteRenders([], args[0]);
      assert ['\''] + [] + Escaped(args[0]) + ['\''] == Quoted(args[0]);
      if |args| > 1 {
        ArgsRender(args[1..]);
        RenderedCons(Space(' '), ArgPieces(args[1..]));
        RenderedConcat(QuotePieces([], args[0]), [Space(' ')] + ArgPieces(args[1..]));
      }
    }
  }

  lemma {:induction false} ArgsFeed(argv: seq<string>, args: seq<string>)
    ensures Ended(FedAll(Reading(argv, [], false), ArgPieces(args))) == argv + args
    decreases |args|
  {
    var r := Reading(argv, [], false);
    if args == [] {
      assert argv + args == argv;
    } else {
      QuoteFeeds(r, [], args[0]);
      assert [] + [] + args[0] == args[0];
      if |args| == 1 {
        assert args == [args[0]];
      } else {
        FedConcat(r, QuotePieces([], args[0]), [Space(' ')] + ArgPieces(args[1..]));
        FedCons(Reading(argv, args[0], true), Space(' '), ArgPieces(args[1..]));
        ArgsFeed(argv + [args[0]], args[1..]);
        assert argv + [args[0]] + args[1..] == argv + args;
      }
    }
  }

  /**
    The parser's answer to quoted arguments is the arguments, whatever they hold, exactly
    when there is a program to name.
    */
  lemma RoundTrip(args: seq<string>, r: Option<seq<string>>)
    requires Answers(Fragment(args), r)
    ensures r == if args != [] && args[0] != [] then Some(args) else None
  {
    ArgsRender(args);
    ArgsFeed([], args);
    assert [] + args == args;
    assert Reads(Fragment(args), args, ArgPieces(args));
    OnlyReading(Fragment(args), args, ArgPieces(args));
  }
}
