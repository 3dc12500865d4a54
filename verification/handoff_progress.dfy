/**
  That the loops of a handoff end: quiescing, activating, releasing and restoring each take one
  terminal a step and come to their end, and what makes a daemon a replaced one.
  */
module HandoffProgress {
  import opened Wrappers
  import opened HandoffTerminal
  import opened HandoffProtocol
  import opened HandoffSafety
  import opened HandoffGuarantees
  import opened HandoffReaders

  lemma TabsKnown(w: World, acts: seq<Action>)
    requires Initial(w) && Possible(w, acts)
    ensures var v := Final(w, acts);
            && TabsInv(v.tabs, v.terms, v.count) && PhaseInv(v.phase, v.replaced, v.refused, v.count)
            && (v.phase == Restoring ==> v.next <= v.count)
  {
    Reachable(w, acts);
  }

  /** In every run, each release takes the next terminal, and the daemon is gone after the last. */
  lemma ReleasingProceeds(w: World, acts: seq<Action>)
    requires Initial(w) && Possible(w, acts) && Final(w, acts).phase == Releasing
    ensures var v := Final(w, acts);
            var r := ReleaseNext(v);
            if v.next < |v.tabs| then r.phase == Releasing && r.next == v.next + 1 && Emptied(r.terms[v.tabs[v.next]]) else r.phase == Gone
  {
    TabsKnown(w, acts);
    ReadsKnown(w, acts);
    var v := Final(w, acts);
    if v.next < |v.tabs| {
      assert v.tabs[v.next] in v.tabs;
    }
  }

  /** In every run, each restore takes the next held terminal, and the daemon is idle after the last. */
  lemma RestoringProceeds(w: World, acts: seq<Action>, starts: bool)
    requires Initial(w) && Possible(w, acts) && Final(w, acts).phase == Restoring
    ensures var v := Final(w, acts);
            var r := RestoreNext(v, starts);
            if v.next < v.count then r.phase == Restoring && r.next == v.next + 1 && v.next < |v.tabs| && Live(r.terms[v.tabs[v.next]])
            else r.phase == Idle
  {
    Reachable(w, acts);
    var v := Final(w, acts);
    if v.next < v.count {
      assert v.tabs[v.next] in v.tabs && Held(v.terms[v.tabs[v.next]]);
    }
  }

  /** In every run, each activation takes the successor's next terminal, and it saves its tabs after the last. */
  lemma ActivatingProceeds(w: World, acts: seq<Action>)
    requires Initial(w) && Possible(w, acts) && Final(w, acts).succ.phase == Activating
    ensures var s := Final(w, acts).succ;
            var r := ActivateNext(Final(w, acts)).succ;
            if s.active < |s.tabs| then r.phase == Activating && r.active == s.active + 1 && r.terms[s.tabs[s.active]].pump
            else r.phase == Persisting
  {
    ReadsKnown(w, acts);
    var s := Final(w, acts).succ;
    if s.active < |s.tabs| {
      assert s.tabs[s.active] in s.tabs;
    }
  }

  // ----- who is replaced -----

  /** Ownership could not be resumed after a failed update. */
  predicate ResumeFailed(acts: seq<Action>) {
    DoResume(false) in acts
  }

  lemma ReplacedMoves(w: World, a: Action)
    requires PhaseInv(w.phase, w.replaced, w.refused, w.count) && Enabled(w, a)
    ensures Step(w, a).replaced <==> w.replaced || a == DoResume(false) || (a == DoRead(true) && w.phase == AwaitCommitted)
  {
    if BySuccessor(a) {
      SuccessorLeavesReplaced(w, a);
    } else if a.DoRead? || a.DoResume? {
      DecisionReplaces(w, a);
    } else {
      OthersLeaveReplaced(w, a);
    }
  }

  lemma SuccessorLeavesReplaced(w: World, a: Action)
    requires Enabled(w, a) && BySuccessor(a)
    ensures Step(w, a).replaced == w.replaced
  {
  }

  lemma DecisionReplaces(w: World, a: Action)
    requires PhaseInv(w.phase, w.replaced, w.refused, w.count) && Enabled(w, a) && (a.DoRead? || a.DoResume?)
    ensures Step(w, a).replaced <==> w.replaced || a == DoResume(false) || (a == DoRead(true) && w.phase == AwaitCommitted)
  {
  }

  lemma OthersLeaveReplaced(w: World, a: Action)
    requires Enabled(w, a) && !BySuccessor(a) && !a.DoRead? && !a.DoResume?
    ensures Step(w, a).replaced == w.replaced
  {
  }

  lemma ResumeFailedSnoc(acts: seq<Action>)
    requires acts != []
    ensures ResumeFailed(acts) <==> ResumeFailed(acts[..|acts| - 1]) || acts[|acts| - 1] == DoResume(false)
  {
    assert acts == acts[..|acts| - 1] + [acts[|acts| - 1]];
  }

  /** In every run, a daemon is replaced if and only if it read `committed` or failed to resume its ownership. */
  lemma {:induction false} ReplacedIff(w: World, acts: seq<Action>)
    requires Initial(w) && Possible(w, acts)
    ensures Final(w, acts).replaced <==> CommittedRead(w, acts) || ResumeFailed(acts)
    decreases |acts|
  {
    if acts != [] {
      var front, a := acts[..|acts| - 1], acts[|acts| - 1];
      ReplacedIff(w, front);
      TabsKnown(w, front);
      ReplacedMoves(Final(w, front), a);
      ResumeFailedSnoc(acts);
    }
  }
}
