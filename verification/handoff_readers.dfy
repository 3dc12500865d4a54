/**
  That somebody reads: a successor that has activated its terminals reads every one of its
  tabs, so after a hand-over each tab is read by exactly one daemon, and the daemon that has
  gone holds none of its terminals.
  */
module HandoffReaders {
  import opened Wrappers
  import opened HandoffTerminal
  import opened HandoffProtocol
  import opened HandoffSafety
  import opened HandoffGuarantees

  // ----- the successor's terminals -----

  predicate HasTerminals(phase: SuccessorPhase) {
    phase == Adopted || phase == AwaitCommit || phase == Activating || Activated(phase)
  }

  predicate Activated(phase: SuccessorPhase) {
    phase == Persisting || phase == Starting || phase == Serving || phase == Owner
  }

  ghost predicate AllOpen(terms: map<Id, Term>) {
    forall id :: id in terms ==> Live(terms[id])
  }

  ghost predicate ReadsUpTo(tabs: seq<Id>, terms: map<Id, Term>, n: nat) {
    n <= |tabs| && forall i :: 0 <= i < n && tabs[i] in terms ==> terms[tabs[i]].pump
  }

  ghost predicate ReadsAll(terms: map<Id, Term>) {
    forall id :: id in terms ==> terms[id].pump
  }

  /** From adoption on every tab has an open terminal, and those activated so far are read. */
  ghost predicate TermsInv(s: Successor) {
    && (HasTerminals(s.phase) ==> Distinct(s.tabs) && Covers(s.tabs, s.terms) && AllOpen(s.terms))
    && (s.phase == Activating ==> ReadsUpTo(s.tabs, s.terms, s.active))
    && (Activated(s.phase) ==> ReadsAll(s.terms))
  }

  /** Who has told `committed` owns the terminals. */
  ghost predicate ToldInv(phase: Phase, s: Successor, toPred: seq<Msg>) {
    Alive(s) && (Committed in toPred || HandedOver(phase)) ==> s.phase == Owner
  }

  /** Nothing of a released terminal is left open. */
  predicate Emptied(t: Term) {
    t.state == Released && t.closed && !t.pty && !t.handoffPTY && !t.renderer && !t.pump
  }

  /** What has been released so far is empty, the rest still held. */
  ghost predicate ReleasedUpTo(tabs: seq<Id>, terms: map<Id, Term>, n: nat) {
    forall i :: 0 <= i < |tabs| && tabs[i] in terms ==> if i < n then Emptied(terms[tabs[i]]) else Held(terms[tabs[i]])
  }

  ghost predicate ReleaseInv(phase: Phase, tabs: seq<Id>, terms: map<Id, Term>, next: nat) {
    && (phase == Releasing ==> ReleasedUpTo(tabs, terms, next))
    && (phase == Gone ==> forall id :: id in terms ==> Emptied(terms[id]))
  }

  ghost predicate ReadInv(w: World) {
    && TermsInv(w.succ) && ToldInv(w.phase, w.succ, w.toPred)
    && ReleaseInv(w.phase, w.tabs, w.terms, w.next)
  }

  lemma ReadsNext(tabs: seq<Id>, terms: map<Id, Term>, n: nat)
    requires ReadsUpTo(tabs, terms, n) && n < |tabs| && tabs[n] in terms && terms[tabs[n]].pty
    ensures ReadsUpTo(tabs, terms[tabs[n] := HandoffTerminal.Activated(terms[tabs[n]])], n + 1)
  {
  }

  lemma ActivateReads(w: World)
    requires TermsInv(w.succ) && w.succ.phase == Activating
    ensures TermsInv(ActivateNext(w).succ)
  {
    var s := w.succ;
    if s.active < |s.tabs| {
      assert s.tabs[s.active] in s.tabs;
      ReadsNext(s.tabs, s.terms, s.active);
      assert AllOpen(ActivateNext(w).succ.terms);
      CoversUpdate(s.tabs, s.terms, s.tabs[s.active], HandoffTerminal.Activated(s.terms[s.tabs[s.active]]));
    } else {
      AllRead(s.tabs, s.terms);
    }
  }

  lemma AllRead(tabs: seq<Id>, terms: map<Id, Term>)
    requires ReadsUpTo(tabs, terms, |tabs|) && Covers(tabs, terms)
    ensures ReadsAll(terms)
  {
    forall id | id in terms ensures terms[id].pump {
      assert id in tabs;
    }
  }

  lemma {:induction false} ManifestDistinct(tabs: seq<Id>, ms: seq<Mutation>)
    requires Distinct(tabs)
    ensures Distinct(MutatedAll(tabs, ms))
  {
    if ms != [] {
      ManifestDistinct(tabs, ms[..|ms| - 1]);
      var mid := MutatedAll(tabs, ms[..|ms| - 1]);
      MutatedContents(mid, map id | id in mid :: OPENED, ms[|ms| - 1]);
    }
  }

  lemma AdoptReads(w: World)
    requires Inv(w) && w.succ.phase == Adopting
    ensures TermsInv(Adopt(w).succ)
  {
    ManifestDistinct(w.tabs, w.succ.log);
  }

  lemma ServeReads(w: World, m: Mutation)
    requires TermsInv(w.succ) && (w.succ.phase == Serving || w.succ.phase == Owner)
    ensures TermsInv(SuccessorMutate(w, m).succ)
  {
    MutatedContents(w.succ.tabs, w.succ.terms, m);
  }

  lemma SuccessorTerms(w: World, a: Action)
    requires Inv(w) && TermsInv(w.succ) && Enabled(w, a) && BySuccessor(a)
    ensures TermsInv(Step(w, a).succ)
  {
    match a
    case DoAdopt => AdoptReads(w);
    case DoActivate => ActivateReads(w);
    case DoSuccessorMutate(m) => ServeReads(w, m);
    case DoTake => TakeReads(w);
    case DoTell => TellReads(w);
    case _ => LateReads(w, a);
  }

  lemma TakeReads(w: World)
    requires TermsInv(w.succ) && CanTake(w)
    ensures TermsInv(Take(w).succ)
  {
  }

  lemma TellReads(w: World)
    requires TermsInv(w.succ) && Telling(w.succ.phase).Some?
    ensures TermsInv(Tell(w).succ)
  {
  }

  lemma LateReads(w: World, a: Action)
    requires TermsInv(w.succ) && Enabled(w, a) && (a.DoPersist? || a.DoStart? || a.SuccessorDies?)
    ensures TermsInv(Step(w, a).succ)
  {
  }

  lemma OthersTerms(w: World, a: Action)
    requires TermsInv(w.succ) && Enabled(w, a) && !BySuccessor(a)
    ensures TermsInv(Step(w, a).succ)
  {
    if !a.DoBegin? && !a.DoSpawn? && !a.DoKill? {
      SuccessorUntouched(w, a);
    }
  }

  lemma SuccessorTold(w: World, a: Action)
    requires ToldInv(w.phase, w.succ, w.toPred) && Enabled(w, a) && BySuccessor(a)
    ensures ToldInv(w.phase, Step(w, a).succ, Step(w, a).toPred)
  {
  }

  lemma ReadTold(w: World, ok: bool)
    requires ToldInv(w.phase, w.succ, w.toPred) && CanRead(w, ok)
    ensures var r := ReadReply(w, ok); ToldInv(r.phase, r.succ, r.toPred)
  {
    if ok {
      assert w.toPred[0] in w.toPred;
    }
  }

  lemma OthersTold(w: World, a: Action)
    requires ToldInv(w.phase, w.succ, w.toPred) && Enabled(w, a) && !BySuccessor(a) && !a.DoRead?
    ensures var r := Step(w, a); ToldInv(r.phase, r.succ, r.toPred)
  {
    OthersHandOver(w, a);
    if !a.DoBegin? && !a.DoSpawn? && !a.DoKill? {
      SuccessorUntouched(w, a);
    }
  }

  lemma SuccessorUntouched(w: World, a: Action)
    requires Enabled(w, a) && !BySuccessor(a) && !a.DoBegin? && !a.DoSpawn? && !a.DoKill?
    ensures Step(w, a).succ == w.succ && (!a.DoRead? ==> Step(w, a).toPred == w.toPred)
  {
  }

  lemma ReleaseStep(w: World)
    requires TabsInv(w.tabs, w.terms, w.count) && w.phase == Releasing && ReleasedUpTo(w.tabs, w.terms, w.next)
    ensures var r := ReleaseNext(w); ReleaseInv(r.phase, r.tabs, r.terms, r.next)
  {
    if w.next >= |w.tabs| {
      forall id | id in w.terms ensures Emptied(w.terms[id]) {
        assert id in w.tabs;
      }
    } else {
      assert w.tabs[w.next] in w.tabs && Held(w.terms[w.tabs[w.next]]);
    }
  }

  lemma EnteringRelease(w: World, a: Action)
    requires Inv(w) && Enabled(w, a) && !a.DoRelease? && !a.DoMutate?
    requires HandedOver(Step(w, a).phase)
    ensures var r := Step(w, a);
            || (r.phase == w.phase && r.tabs == w.tabs && r.terms == w.terms && r.next == w.next)
            || (r.phase == Releasing && r.next == 0 && w.phase == AwaitCommitted && r.tabs == w.tabs && r.terms == w.terms)
  {
    if BySuccessor(a) {
      SuccessorFrame(w, a);
    } else if a.DoRead? {
      ReadHandsOver(w, a.ok);
    } else {
      OthersHandOver(w, a);
    }
  }

  lemma ReleaseKept(w: World, a: Action)
    requires Inv(w) && Shaped(w) && ReleaseInv(w.phase, w.tabs, w.terms, w.next) && Enabled(w, a)
    ensures var r := Step(w, a); ReleaseInv(r.phase, r.tabs, r.terms, r.next)
  {
    if a.DoRelease? {
      ReleaseStep(w);
    } else if !a.DoMutate? && HandedOver(Step(w, a).phase) {
      EnteringRelease(w, a);
    }
  }

  lemma StepReads(w: World, a: Action)
    requires Inv(w) && Shaped(w) && ReadInv(w) && Enabled(w, a)
    ensures ReadInv(Step(w, a))
  {
    ReleaseKept(w, a);
    if BySuccessor(a) {
      SuccessorFrame(w, a);
      SuccessorTerms(w, a);
      SuccessorTold(w, a);
    } else {
      OthersTerms(w, a);
      if a.DoRead? {
        ReadTold(w, a.ok);
      } else {
        OthersTold(w, a);
      }
    }
  }

  lemma {:induction false} ReadsKnown(w: World, acts: seq<Action>)
    requires Initial(w) && Possible(w, acts)
    ensures ReadInv(Final(w, acts))
    decreases |acts|
  {
    if acts != [] {
      var front, a := acts[..|acts| - 1], acts[|acts| - 1];
      ReadsKnown(w, front);
      Reachable(w, front);
      StepReads(Final(w, front), a);
    }
  }

  // ----- the guarantees -----

  /** In every run, a successor that has activated its terminals holds and reads every one of its tabs. */
  lemma ActivatedReadsEveryTab(w: World, acts: seq<Action>, id: Id)
    requires Initial(w) && Possible(w, acts) && Activated(Final(w, acts).succ.phase) && id in Final(w, acts).succ.tabs
    ensures SuccessorReads(Final(w, acts), id) && Live(Final(w, acts).succ.terms[id])
  {
    ReadsKnown(w, acts);
  }

  /**
    In every run, once the update is handed over and while the successor lives, every tab it
    serves is read by it and by nobody else.
    */
  lemma ExactlyOneReader(w: World, acts: seq<Action>, id: Id)
    requires Initial(w) && Possible(w, acts) && HandedOver(Final(w, acts).phase) && Alive(Final(w, acts).succ)
    requires id in Final(w, acts).succ.tabs
    ensures SuccessorReads(Final(w, acts), id) && !PredecessorReads(Final(w, acts), id)
  {
    ReadsKnown(w, acts);
    AtMostOneReader(w, acts, id);
  }

  /** In every run, a daemon that has gone has nothing left open of any terminal. */
  lemma GoneIsReleased(w: World, acts: seq<Action>, id: Id)
    requires Initial(w) && Possible(w, acts) && Final(w, acts).phase == Gone && id in Final(w, acts).terms
    ensures Emptied(Final(w, acts).terms[id]) && !PredecessorReads(Final(w, acts), id)
  {
    ReadsKnown(w, acts);
  }

  // ----- whose ownership is to be resumed -----

  /** The replacement was prepared since the last update began. */
  function PreparedBy(acts: seq<Action>): (b: bool) {
    acts != [] &&
    match acts[|acts| - 1]
    case DoBegin => false
    case DoPrepare(ok) => ok || PreparedBy(acts[..|acts| - 1])
    case _ => PreparedBy(acts[..|acts| - 1])
  }

  lemma PreparedStep(w: World, a: Action)
    requires Enabled(w, a)
    ensures Step(w, a).prepared == (a == DoPrepare(true) || (!a.DoBegin? && w.prepared))
  {
  }

  /** In every run, a rollback resumes ownership if and only if this update had prepared to give it up. */
  lemma {:induction false} ResumesIff(w: World, acts: seq<Action>)
    requires Initial(w) && Possible(w, acts)
    ensures Final(w, acts).prepared == PreparedBy(acts)
    ensures Final(w, acts).phase == Killing ==> (Step(Final(w, acts), DoKill).phase == Resuming <==> PreparedBy(acts))
    decreases |acts|
  {
    if acts != [] {
      var front, a := acts[..|acts| - 1], acts[|acts| - 1];
      ResumesIff(w, front);
      PreparedStep(Final(w, front), a);
    }
  }
}
