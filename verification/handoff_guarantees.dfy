/** What the live handoff guarantees over every run, with an error or a death at any step. */
module HandoffGuarantees {
  import opened Wrappers
  import opened HandoffTerminal
  import opened HandoffProtocol
  import opened HandoffSafety

  // ----- who reads, and when -----

  /** In every run, at most one daemon reads a given PTY. */
  lemma AtMostOneReader(w: World, acts: seq<Action>, id: Id)
    requires Initial(w) && Possible(w, acts)
    ensures !(PredecessorReads(Final(w, acts), id) && SuccessorReads(Final(w, acts), id))
  {
    Reachable(w, acts);
  }

  lemma OthersLeaveTerms(w: World, a: Action)
    requires Enabled(w, a) && !ChangesTerms(a)
    ensures Step(w, a).terms == w.terms && Step(w, a).tabs == w.tabs
  {
    if BySuccessor(a) {
      SuccessorFrame(w, a);
    } else if Sends(a) {
      SendProceeds(w, a);
    } else {
      ControlFrame(w, a);
    }
  }

  lemma OnlyRestoreStarts(w: World, a: Action, id: Id)
    requires Enabled(w, a) && id in w.terms && !w.terms[id].pump
    requires id in Step(w, a).terms && Step(w, a).terms[id].pump
    ensures a.DoRestore?
  {
    if !ChangesTerms(a) {
      OthersLeaveTerms(w, a);
    }
  }

  lemma OnlyReleaseReleases(w: World, a: Action, id: Id)
    requires Enabled(w, a) && id in w.terms && w.terms[id].state != Released
    requires id in Step(w, a).terms && Step(w, a).terms[id].state == Released
    ensures a.DoRelease?
  {
    if !ChangesTerms(a) {
      OthersLeaveTerms(w, a);
    }
  }

  lemma RestoreIsAlone(w: World, starts: bool)
    requires ReaderInv(w.phase, Alive(w.succ), w.tabs, w.terms, w.count) && w.phase == Restoring
    ensures !Alive(w.succ) && !Alive(RestoreNext(w, starts).succ)
  {
  }

  /**
    In every run, a step that makes the predecessor read an existing PTY again
    leaves no live successor: it was killed and reaped first.
    */
  lemma RestartsOnlyAfterReap(w: World, acts: seq<Action>, a: Action, id: Id)
    requires Initial(w) && Possible(w, acts) && Enabled(Final(w, acts), a)
    requires var end := Final(w, acts); id in end.terms && !end.terms[id].pump && PredecessorReads(Step(end, a), id)
    ensures !Alive(Final(w, acts).succ) && !Alive(Step(Final(w, acts), a).succ)
  {
    var end := Final(w, acts);
    Reachable(w, acts);
    OnlyRestoreStarts(end, a, id);
    RestoreIsAlone(end, a.starts);
  }

  /**
    In every run, a step that releases a terminal comes after the successor saved
    exactly the predecessor's tabs, each served mutation included.
    */
  lemma ReleasesOnlyAfterSave(w: World, acts: seq<Action>, a: Action, id: Id)
    requires Initial(w) && Possible(w, acts) && Enabled(Final(w, acts), a)
    requires var end := Final(w, acts);
             && id in end.terms && end.terms[id].state != Released
             && id in Step(end, a).terms && Step(end, a).terms[id].state == Released
    ensures var end := Final(w, acts);
            end.succ.saved == Some(end.tabs) == Some(MutatedAll(end.first, end.log)) && end.replaced
  {
    Reachable(w, acts);
    OnlyReleaseReleases(Final(w, acts), a, id);
  }

  // ----- every mutation is accounted for -----

  /** The mutations clients asked this daemon for, in order. */
  function Asked(acts: seq<Action>): (ms: seq<Mutation>) {
    if acts == [] then []
    else Asked(acts[..|acts| - 1]) + if acts[|acts| - 1].DoMutate? then [acts[|acts| - 1].m] else []
  }

  lemma SuccessorBooks(w: World, a: Action)
    requires Enabled(w, a) && BySuccessor(a)
    ensures var r := Step(w, a); r.first == w.first && r.log == w.log && r.refused == w.refused && r.tabs == w.tabs
  {
  }

  lemma BooksFrame(w: World, a: Action)
    requires Enabled(w, a) && !a.DoMutate?
    ensures var r := Step(w, a); r.first == w.first && r.log == w.log && r.refused == w.refused && r.tabs == w.tabs
  {
    if BySuccessor(a) {
      SuccessorBooks(w, a);
    } else if Sends(a) {
      SendProceeds(w, a);
    }
  }

  lemma {:induction false} FirstStays(w: World, acts: seq<Action>)
    requires Initial(w) && Possible(w, acts)
    ensures Final(w, acts).first == w.tabs
    decreases |acts|
  {
    if acts != [] {
      var front, a := acts[..|acts| - 1], acts[|acts| - 1];
      FirstStays(w, front);
      if !a.DoMutate? {
        BooksFrame(Final(w, front), a);
      }
    }
  }

  lemma AccountStep(w: World, a: Action, asked: seq<Mutation>)
    requires Enabled(w, a) && asked == w.log + w.refused && (w.refused != [] ==> w.replaced)
    ensures var r := Step(w, a); asked + (if a.DoMutate? then [a.m] else []) == r.log + r.refused
  {
    if a.DoMutate? {
      assert w.log + w.refused + [a.m] == w.log + (w.refused + [a.m]);
    } else {
      BooksFrame(w, a);
    }
  }

  lemma {:induction false} AskedIs(w: World, acts: seq<Action>)
    requires Initial(w) && Possible(w, acts)
    ensures Asked(acts) == Final(w, acts).log + Final(w, acts).refused
    decreases |acts|
  {
    if acts != [] {
      var front, a := acts[..|acts| - 1], acts[|acts| - 1];
      AskedIs(w, front);
      Reachable(w, front);
      AccountStep(Final(w, front), a, Asked(front));
    }
  }

  /** Served first, and from some moment on refused: nothing else, nothing twice, nothing out of order. */
  lemma EveryMutationAccounted(w: World, acts: seq<Action>)
    requires Initial(w) && Possible(w, acts)
    ensures var end := Final(w, acts);
            && Asked(acts) == end.log + end.refused
            && (end.refused != [] ==> end.replaced)
            && end.tabs == MutatedAll(w.tabs, end.log)
            && (HandedOver(end.phase) ==> end.succ.saved == Some(MutatedAll(w.tabs, end.log)))
  {
    Reachable(w, acts);
    FirstStays(w, acts);
    AskedIs(w, acts);
  }

  predicate Owned(phase: Phase) {
    HandedOver(phase) || phase == Restoring || phase == Idle || phase == Crashed
  }

  lemma ReplacedStep(w: World, a: Action)
    requires w.replaced && Owned(w.phase) && Enabled(w, a)
    ensures Step(w, a).replaced && Step(w, a).tabs == w.tabs && Step(w, a).log == w.log
  {
    if !a.DoMutate? {
      BooksFrame(w, a);
      ReplacedFrame(w, a);
    }
  }

  lemma ReplacedFrame(w: World, a: Action)
    requires w.replaced && Owned(w.phase) && Enabled(w, a)
    ensures Step(w, a).replaced
  {
    match a
    case DoResume(ok) => assert false;
    case _ =>
  }

  lemma {:induction false} PrefixPossible(w: World, acts: seq<Action>, k: nat)
    requires Possible(w, acts) && k <= |acts|
    ensures Possible(w, acts[..k])
    decreases |acts|
  {
    if k < |acts| {
      PrefixPossible(w, acts[..|acts| - 1], k);
      assert acts[..|acts| - 1][..k] == acts[..k];
    } else {
      assert acts[..k] == acts;
    }
  }

  /** Once replaced, always replaced: no tab changes any more, and whatever is asked is refused. */
  lemma {:induction false} ReplacedIsFinal(w: World, acts: seq<Action>, k: nat)
    requires Initial(w) && Possible(w, acts) && k <= |acts| && Possible(w, acts[..k]) && Final(w, acts[..k]).replaced
    ensures var mid, end := Final(w, acts[..k]), Final(w, acts);
            end.replaced && end.tabs == mid.tabs && end.log == mid.log
    decreases |acts|
  {
    if k < |acts| {
      var front := acts[..|acts| - 1];
      assert front[..k] == acts[..k];
      ReplacedIsFinal(w, front, k);
      Reachable(w, front);
      ReplacedStep(Final(w, front), acts[|acts| - 1]);
    } else {
      assert acts[..k] == acts;
    }
  }

  lemma BooksGrow(w: World, a: Action)
    requires Enabled(w, a)
    ensures w.log <= Step(w, a).log && w.refused <= Step(w, a).refused
  {
    if !a.DoMutate? {
      BooksFrame(w, a);
    }
  }

  lemma {:induction false} BooksOnlyGrow(w: World, acts: seq<Action>, k: nat)
    requires Possible(w, acts) && k <= |acts| && Possible(w, acts[..k])
    ensures Final(w, acts[..k]).log <= Final(w, acts).log && Final(w, acts[..k]).refused <= Final(w, acts).refused
    decreases |acts|
  {
    if k < |acts| {
      var front := acts[..|acts| - 1];
      assert front[..k] == acts[..k];
      BooksOnlyGrow(w, front, k);
      BooksGrow(Final(w, front), acts[|acts| - 1]);
    } else {
      assert acts[..k] == acts;
    }
  }

  /**
    The fate of one mutation. Asked of a daemon that owns its tabs it is served, and stays in
    the log every later manifest and saved session is made from; asked of a replaced one it is
    refused, and no tab ever changes again.
    */
  lemma MutationFate(w: World, acts: seq<Action>, k: nat)
    requires Initial(w) && Possible(w, acts) && k < |acts| && acts[k].DoMutate? && Possible(w, acts[..k])
    ensures var mid, end, m := Final(w, acts[..k]), Final(w, acts), acts[k].m;
            if mid.replaced then end.replaced && |mid.refused| < |end.refused| && end.refused[|mid.refused|] == m && end.tabs == mid.tabs
            else |mid.log| < |end.log| && end.log[|mid.log|] == m
  {
    PrefixPossible(w, acts, k + 1);
    assert acts[..k + 1][..k] == acts[..k];
    BooksOnlyGrow(w, acts, k + 1);
    if Final(w, acts[..k]).replaced {
      ReplacedIsFinal(w, acts, k);
    }
  }

  /** A manifest carries the effect of every mutation asked for so far: none was refused, none is missing. */
  lemma ManifestCarriesAll(w: World, acts: seq<Action>)
    requires Initial(w) && Possible(w, acts) && Final(w, acts).phase == SendManifest
    ensures var end := Final(w, acts);
            Step(end, DoManifest(true)).toSucc == end.toSucc + [Manifest(MutatedAll(w.tabs, Asked(acts)))]
  {
    EveryMutationAccounted(w, acts);
    Reachable(w, acts);
    assert Final(w, acts).log + [] == Final(w, acts).log;
  }

  // ----- reading again after a rollback -----

  predicate RestoresTab(w: World) {
    w.next < w.count && w.next < |w.tabs| && w.tabs[w.next] in w.terms
  }

  /** Whether a terminal's renderer started when it was last started, for every terminal so far. */
  ghost function Started(w: World, acts: seq<Action>): (starts: map<Id, bool>)
    requires Possible(w, acts)
    decreases |acts|
  {
    if acts == [] then map id | id in w.terms :: true
    else
      var front, a := acts[..|acts| - 1], acts[|acts| - 1];
      StartsAfter(Started(w, front), Final(w, front), a)
  }

  function StartsAfter(starts: map<Id, bool>, w: World, a: Action): (r: map<Id, bool>) {
    match a
    case DoMutate(m) => if m.Open? && !w.replaced && m.id !in w.terms then starts[m.id := true] else starts
    case DoRestore(ok) => if RestoresTab(w) then starts[w.tabs[w.next] := ok] else starts
    case _ => starts
  }

  ghost predicate StartInv(terms: map<Id, Term>, starts: map<Id, bool>) {
    forall id :: id in terms && Live(terms[id]) ==> id in starts && terms[id].pump == starts[id]
  }

  lemma MutateStarts(w: World, m: Mutation, starts: map<Id, bool>)
    requires StartInv(w.terms, starts)
    ensures StartInv(Mutate(w, m).terms, StartsAfter(starts, w, DoMutate(m)))
  {
  }

  lemma TermStarts(terms: map<Id, Term>, starts: map<Id, bool>, id: Id, t: Term)
    requires StartInv(terms, starts) && !Live(t)
    ensures StartInv(terms[id := t], starts)
  {
  }

  lemma QuiesceStarts(w: World, f: BeginFaults, starts: map<Id, bool>)
    requires StartInv(w.terms, starts) && CanQuiesce(w)
    ensures StartInv(QuiesceNext(w, f).terms, starts)
  {
    var id := w.tabs[w.count];
    if BeginAnswer(w.terms[id], f) != Refused {
      TermStarts(w.terms, starts, id, Begun(w.terms[id], f));
    }
  }

  lemma ReleaseStarts(w: World, starts: map<Id, bool>)
    requires StartInv(w.terms, starts)
    ensures StartInv(ReleaseNext(w).terms, starts)
  {
    if w.next < |w.tabs| && w.tabs[w.next] in w.terms {
      TermStarts(w.terms, starts, w.tabs[w.next], ReleasedTerm(w.terms[w.tabs[w.next]]));
    }
  }

  lemma RestoreStarts(w: World, ok: bool, starts: map<Id, bool>)
    requires StartInv(w.terms, starts) && Shaped(w) && w.phase == Restoring
    ensures StartInv(RestoreNext(w, ok).terms, StartsAfter(starts, w, DoRestore(ok)))
  {
    if RestoresTab(w) {
      assert Held(w.terms[w.tabs[w.next]]);
    }
  }

  lemma {:induction false} StartsKnown(w: World, acts: seq<Action>)
    requires Initial(w) && Possible(w, acts)
    ensures StartInv(Final(w, acts).terms, Started(w, acts))
    decreases |acts|
  {
    if acts != [] {
      var front, a := acts[..|acts| - 1], acts[|acts| - 1];
      StartsKnown(w, front);
      Reachable(w, front);
      var mid, starts := Final(w, front), Started(w, front);
      match a
      case DoMutate(m) => MutateStarts(mid, m, starts);
      case DoQuiesce(f) => QuiesceStarts(mid, f, starts);
      case DoRelease => ReleaseStarts(mid, starts);
      case DoRestore(ok) => RestoreStarts(mid, ok, starts);
      case _ => OthersLeaveTerms(mid, a);
    }
  }

  /**
    When an update is over and not committed, every terminal has its own PTY back, no successor
    is alive, and a terminal is read again if and only if its renderer started.
    */
  lemma RollbackRestores(w: World, acts: seq<Action>, id: Id)
    requires Initial(w) && Possible(w, acts) && Final(w, acts).phase == Idle && id in Final(w, acts).terms
    ensures var end := Final(w, acts);
            && Live(end.terms[id]) && !Alive(end.succ)
            && id in Started(w, acts) && (PredecessorReads(end, id) <==> Started(w, acts)[id])
  {
    Reachable(w, acts);
    StartsKnown(w, acts);
    assert id in Final(w, acts).tabs;
  }

  // ----- an update that never ends -----

  lemma BlocksIff(w: World, f: BeginFaults, starts: map<Id, bool>)
    requires Shaped(w) && StartInv(w.terms, starts) && CanQuiesce(w)
    ensures w.tabs[w.count] in starts && (QuiesceNext(w, f).phase == Stuck <==> AllOk(f) && !starts[w.tabs[w.count]])
  {
    assert Live(w.terms[w.tabs[w.count]]);
  }

  /** In every run, quiescing a terminal blocks for ever if and only if nothing fails before the wait and its renderer did not start. */
  lemma QuiesceBlocksIff(w: World, acts: seq<Action>, f: BeginFaults)
    requires Initial(w) && Possible(w, acts) && CanQuiesce(Final(w, acts))
    ensures var end := Final(w, acts);
            var id := end.tabs[end.count];
            && id in Started(w, acts)
            && (Step(end, DoQuiesce(f)).phase == Stuck <==> AllOk(f) && !Started(w, acts)[id])
  {
    Reachable(w, acts);
    StartsKnown(w, acts);
    BlocksIff(Final(w, acts), f, Started(w, acts));
  }

  predicate Ended(phase: Phase) {
    phase == Stuck || phase == Crashed
  }

  lemma EndedEnables(w: World, a: Action)
    requires Ended(w.phase) && Enabled(w, a)
    ensures BySuccessor(a) || a.PredecessorDies?
  {
  }

  lemma EndedStep(w: World, a: Action)
    requires Ended(w.phase) && Enabled(w, a)
    ensures Ended(Step(w, a).phase) && Step(w, a).log == w.log && Step(w, a).refused == w.refused
  {
    EndedEnables(w, a);
    if BySuccessor(a) {
      SuccessorFrame(w, a);
      SuccessorBooks(w, a);
    }
  }

  /** From then on nothing is served or even refused until the daemon dies. */
  lemma {:induction false} StuckIsFinal(w: World, acts: seq<Action>, k: nat)
    requires Initial(w) && Possible(w, acts) && k <= |acts| && Possible(w, acts[..k])
    requires Ended(Final(w, acts[..k]).phase)
    ensures var mid, end := Final(w, acts[..k]), Final(w, acts);
            Ended(end.phase) && end.log == mid.log && end.refused == mid.refused
    decreases |acts|
  {
    if k < |acts| {
      var front := acts[..|acts| - 1];
      assert front[..k] == acts[..k];
      StuckIsFinal(w, front, k);
      Reachable(w, front);
      EndedStep(Final(w, front), acts[|acts| - 1]);
    } else {
      assert acts[..k] == acts;
    }
  }

  // ----- what a successor served -----

  /** Everything any daemon served, in order. */
  ghost function AllServed(w: World, acts: seq<Action>): (ms: seq<Mutation>)
    requires Possible(w, acts)
    decreases |acts|
  {
    if acts == [] then []
    else
      var front, a := acts[..|acts| - 1], acts[|acts| - 1];
      AllServed(w, front) +
      if a.DoMutate? && !Final(w, front).replaced then [a.m] else if a.DoSuccessorMutate? then [a.m] else []
  }

  /** What successors had served at the moment they were killed. */
  ghost function Lost(w: World, acts: seq<Action>): (ms: seq<Mutation>)
    requires Possible(w, acts)
    decreases |acts|
  {
    if acts == [] then []
    else Lost(w, acts[..|acts| - 1]) + if acts[|acts| - 1].DoKill? then Final(w, acts[..|acts| - 1]).succ.log else []
  }

  ghost predicate Balanced(all: seq<Mutation>, lost: seq<Mutation>, w: World) {
    |all| == |w.log| + |w.succ.log| + |lost| && (lost == [] ==> all == w.log + w.succ.log)
  }

  /** Nothing but serving, killing and starting over touches what a successor served. */
  lemma ServedFrame(w: World, a: Action)
    requires Enabled(w, a) && !a.DoSuccessorMutate? && !a.DoKill? && !a.DoBegin? && !a.DoSpawn?
    ensures Step(w, a).succ.log == w.succ.log
  {
    if BySuccessor(a) {
      SuccessorServes(w, a);
    }
  }

  lemma SuccessorServes(w: World, a: Action)
    requires Enabled(w, a) && BySuccessor(a) && !a.DoSuccessorMutate?
    ensures Step(w, a).succ.log == w.succ.log
  {
  }

  lemma FreshFrame(w: World, a: Action)
    requires Inv(w) && Enabled(w, a) && (a.DoBegin? || a.DoSpawn?)
    ensures Step(w, a).succ.log == w.succ.log == []
  {
  }

  lemma BalanceStep(w: World, a: Action, all: seq<Mutation>, lost: seq<Mutation>)
    requires Inv(w) && Enabled(w, a) && Balanced(all, lost, w)
    ensures var more := if a.DoMutate? && !w.replaced then [a.m] else if a.DoSuccessorMutate? then [a.m] else [];
            Balanced(all + more, lost + (if a.DoKill? then w.succ.log else []), Step(w, a))
  {
    match a
    case DoMutate(m) => MutateBalance(w, m, all, lost);
    case DoSuccessorMutate(m) => ServeBalance(w, m, all, lost);
    case DoKill => KillBalance(w, all, lost);
    case _ => OtherBalance(w, a, all, lost);
  }

  lemma ServeBalance(w: World, m: Mutation, all: seq<Mutation>, lost: seq<Mutation>)
    requires Balanced(all, lost, w)
    ensures Balanced(all + [m], lost + [], SuccessorMutate(w, m))
  {
    assert lost + [] == lost;
    assert w.log + w.succ.log + [m] == w.log + (w.succ.log + [m]);
  }

  lemma OtherBalance(w: World, a: Action, all: seq<Mutation>, lost: seq<Mutation>)
    requires Inv(w) && Enabled(w, a) && Balanced(all, lost, w) && !a.DoMutate? && !a.DoSuccessorMutate? && !a.DoKill?
    ensures Balanced(all + [], lost + [], Step(w, a))
  {
    BooksFrame(w, a);
    if a.DoBegin? || a.DoSpawn? {
      FreshFrame(w, a);
    } else {
      ServedFrame(w, a);
    }
    assert all + [] == all && lost + [] == lost;
  }

  lemma MutateBalance(w: World, m: Mutation, all: seq<Mutation>, lost: seq<Mutation>)
    requires Inv(w) && (w.phase == Idle || w.phase == Gone) && Balanced(all, lost, w)
    ensures Balanced(all + (if w.replaced then [] else [m]), lost + [], Mutate(w, m))
  {
    assert lost + [] == lost && all + [] == all;
    if !w.replaced {
      assert w.succ.log == [];
      assert w.log + [m] + [] == w.log + [] + [m];
    }
  }

  lemma KillBalance(w: World, all: seq<Mutation>, lost: seq<Mutation>)
    requires Balanced(all, lost, w)
    ensures Balanced(all + [], lost + w.succ.log, KillAndReap(w))
  {
    assert all + [] == all;
    assert lost + w.succ.log == [] ==> lost == [] && w.succ.log == [];
  }

  lemma {:induction false} AlwaysBalanced(w: World, acts: seq<Action>)
    requires Initial(w) && Possible(w, acts)
    ensures Balanced(AllServed(w, acts), Lost(w, acts), Final(w, acts))
    decreases |acts|
  {
    if acts != [] {
      var front, a := acts[..|acts| - 1], acts[|acts| - 1];
      AlwaysBalanced(w, front);
      Reachable(w, front);
      BalanceStep(Final(w, front), a, AllServed(w, front), Lost(w, front));
    }
  }

  /** One daemon is left to serve: the predecessor after a rollback, the successor after a hand-over or a crash. */
  predicate Decided(w: World) {
    w.phase == Idle || ((HandedOver(w.phase) || w.phase == Crashed) && (w.succ.phase == Serving || w.succ.phase == Owner))
  }

  function SurvivingTabs(w: World): (tabs: seq<Id>) {
    if w.phase == Idle then w.tabs else w.succ.tabs
  }

  lemma {:induction false} MutatedConcat(tabs: seq<Id>, a: seq<Mutation>, b: seq<Mutation>)
    ensures MutatedAll(tabs, a + b) == MutatedAll(MutatedAll(tabs, a), b)
    decreases |b|
  {
    if b == [] {
      assert a + b == a;
    } else {
      var n := |b| - 1;
      MutatedConcat(tabs, a, b[..n]);
      assert (a + b)[..|a + b| - 1] == a + b[..n];
    }
  }

  lemma SurvivorsHistory(w: World)
    requires Inv(w) && Decided(w)
    ensures SurvivingTabs(w) == MutatedAll(w.first, w.log + w.succ.log)
  {
    MutatedConcat(w.first, w.log, w.succ.log);
    assert MutatedAll(w.tabs, []) == w.tabs;
  }

  lemma BalancedIff(all: seq<Mutation>, lost: seq<Mutation>, w: World)
    requires Balanced(all, lost, w)
    ensures all == w.log + w.succ.log <==> lost == []
  {
  }

  /**
    The surviving daemon's tabs are what some history of mutations makes of the first tabs, and
    that history is everything that was ever served if and only if no successor had served
    anything when it was killed.
    */
  lemma ServedSurvivesIff(w: World, acts: seq<Action>)
    requires Initial(w) && Possible(w, acts) && Decided(Final(w, acts))
    ensures var end := Final(w, acts);
            var history := end.log + end.succ.log;
            && SurvivingTabs(end) == MutatedAll(w.tabs, history)
            && (AllServed(w, acts) == history <==> Lost(w, acts) == [])
  {
    Reachable(w, acts);
    FirstStays(w, acts);
    SurvivorsHistory(Final(w, acts));
    AlwaysBalanced(w, acts);
    BalancedIff(AllServed(w, acts), Lost(w, acts), Final(w, acts));
  }

  // ----- which of a successor's work is lost -----

  /** What any successor served, in order. */
  function ServedBySuccessors(acts: seq<Action>): (ms: seq<Mutation>) {
    if acts == [] then []
    else ServedBySuccessors(acts[..|acts| - 1]) + if acts[|acts| - 1].DoSuccessorMutate? then [acts[|acts| - 1].m] else []
  }

  /** The predecessor has read `committed`. */
  ghost predicate CommittedRead(w: World, acts: seq<Action>)
    requires Possible(w, acts)
    decreases |acts|
  {
    acts != [] &&
    var front, a := acts[..|acts| - 1], acts[|acts| - 1];
    CommittedRead(w, front) || (a == DoRead(true) && Final(w, front).phase == AwaitCommitted)
  }

  lemma HandOverStep(w: World, a: Action)
    requires Enabled(w, a)
    ensures (w.phase == AwaitCommitted && a == DoRead(true)) || HandedOver(w.phase) ==>
              HandedOver(Step(w, a).phase) || Step(w, a).phase == Crashed
    ensures w.phase == Crashed ==> Step(w, a).phase == Crashed
    ensures HandedOver(Step(w, a).phase) ==> HandedOver(w.phase) || (w.phase == AwaitCommitted && a == DoRead(true))
  {
    if BySuccessor(a) {
      SuccessorFrame(w, a);
    } else if a.DoRead? {
      ReadHandsOver(w, a.ok);
    } else {
      OthersHandOver(w, a);
    }
  }

  lemma ReadHandsOver(w: World, ok: bool)
    requires CanRead(w, ok)
    ensures HandedOver(ReadReply(w, ok).phase) <==> w.phase == AwaitCommitted && ok
  {
  }

  lemma OthersHandOver(w: World, a: Action)
    requires Enabled(w, a) && !BySuccessor(a) && !a.DoRead?
    ensures HandedOver(w.phase) ==> HandedOver(Step(w, a).phase) || Step(w, a).phase == Crashed
    ensures w.phase == Crashed ==> Step(w, a).phase == Crashed
    ensures HandedOver(Step(w, a).phase) ==> HandedOver(w.phase)
  {
  }

  /** The message is read at most once, and only the daemon's death takes it out of the phases behind. */
  lemma {:induction false} CommittedPhase(w: World, acts: seq<Action>)
    requires Initial(w) && Possible(w, acts)
    ensures HandedOver(Final(w, acts).phase) ==> CommittedRead(w, acts)
    ensures CommittedRead(w, acts) ==> HandedOver(Final(w, acts).phase) || Final(w, acts).phase == Crashed
    decreases |acts|
  {
    if acts != [] {
      var front, a := acts[..|acts| - 1], acts[|acts| - 1];
      CommittedPhase(w, front);
      HandOverStep(Final(w, front), a);
    }
  }

  /** What the successor's log holds after a step. */
  lemma LogMoves(w: World, a: Action)
    requires Inv(w) && Enabled(w, a)
    ensures Step(w, a).succ.log ==
            if a.DoSuccessorMutate? then w.succ.log + [a.m] else if a.DoKill? then [] else w.succ.log
  {
    if a.DoSuccessorMutate? || a.DoKill? {
    } else if a.DoBegin? || a.DoSpawn? {
      FreshFrame(w, a);
    } else {
      ServedFrame(w, a);
    }
  }

  lemma ServedStep(w: World, a: Action, served: seq<Mutation>, lost: seq<Mutation>)
    requires Inv(w) && Enabled(w, a) && served == lost + w.succ.log
    ensures served + (if a.DoSuccessorMutate? then [a.m] else []) ==
            lost + (if a.DoKill? then w.succ.log else []) + Step(w, a).succ.log
  {
    LogMoves(w, a);
  }

  lemma {:induction false} ServedIsLostOrKept(w: World, acts: seq<Action>)
    requires Initial(w) && Possible(w, acts)
    ensures ServedBySuccessors(acts) == Lost(w, acts) + Final(w, acts).succ.log
    decreases |acts|
  {
    if acts != [] {
      var front, a := acts[..|acts| - 1], acts[|acts| - 1];
      ServedIsLostOrKept(w, front);
      Reachable(w, front);
      ServedStep(Final(w, front), a, ServedBySuccessors(front), Lost(w, front));
    }
  }

  lemma LostStep(w: World, acts: seq<Action>, a: Action)
    requires Possible(w, acts) && Enabled(Final(w, acts), a) && Possible(w, acts + [a])
    ensures Lost(w, acts + [a]) == Lost(w, acts) + if a.DoKill? then Final(w, acts).succ.log else []
  {
    assert (acts + [a])[..|acts|] == acts;
  }

  /**
    A successor's work is lost at one moment only: when a successor that has served is killed,
    and that is always before `committed` is read. So a daemon that goes on after a rollback
    has lost all that successors ever served, and one that has handed over has lost nothing of
    what the successor served.
    */
  lemma LostIff(w: World, acts: seq<Action>, a: Action)
    requires Initial(w) && Possible(w, acts) && Enabled(Final(w, acts), a) && Possible(w, acts + [a])
    ensures Lost(w, acts + [a]) != Lost(w, acts) <==> a.DoKill? && Final(w, acts).succ.log != []
    ensures Lost(w, acts + [a]) != Lost(w, acts) ==> !CommittedRead(w, acts)
    ensures ServedBySuccessors(acts) == Lost(w, acts) + Final(w, acts).succ.log
    ensures Final(w, acts).phase == Idle ==> Lost(w, acts) == ServedBySuccessors(acts)
    ensures HandedOver(Final(w, acts).phase) ==> CommittedRead(w, acts)
  {
    LostStep(w, acts, a);
    CommittedPhase(w, acts);
    ServedIsLostOrKept(w, acts);
    Reachable(w, acts);
    assert Final(w, acts).phase == Idle ==> Lost(w, acts) + [] == Lost(w, acts);
    assert |Lost(w, acts + [a])| == |Lost(w, acts)| + if a.DoKill? then |Final(w, acts).succ.log| else 0;
  }

  /**
    What rollback does not undo: session.json differs from the predecessor's tabs
    exactly by what a successor served before it was killed.
    */
  lemma SessionAfterRollback(w: World, acts: seq<Action>)
    requires Initial(w) && Possible(w, acts)
    ensures var end := Final(w, acts);
            end.session == MutatedAll(end.tabs, end.stale) && (end.stale == [] ==> end.session == end.tabs)
  {
    Reachable(w, acts);
  }
}
