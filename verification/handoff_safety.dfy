/** What every step of the handoff keeps, one component of the two processes' state at a time. */
module HandoffSafety {
  import opened Wrappers
  import opened HandoffTerminal
  import opened HandoffProtocol

  predicate Beyond(phase: Phase) {
    || phase == AwaitHello || phase == SendManifest || phase == SendFds || phase == AwaitReady
    || phase == Prepare || phase == SendCommit || phase == AwaitCommitted
  }

  predicate HandedOver(phase: Phase) {
    phase == Releasing || phase == Gone
  }

  ghost predicate Quiet(terms: map<Id, Term>) {
    forall id :: id in terms ==> !terms[id].pump
  }

  ghost predicate QuietUpTo(tabs: seq<Id>, terms: map<Id, Term>, n: nat) {
    forall i :: 0 <= i < n && i < |tabs| && tabs[i] in terms ==> !terms[tabs[i]].pump
  }

  ghost predicate TabsInv(tabs: seq<Id>, terms: map<Id, Term>, count: nat) {
    Distinct(tabs) && Covers(tabs, terms) && count <= |tabs|
  }

  /** Being replaced is final: it only happens at hand-over, or when ownership could not be resumed. */
  ghost predicate PhaseInv(phase: Phase, replaced: bool, refused: seq<Mutation>, count: nat) {
    && (phase == Idle ==> count == 0)
    && (HandedOver(phase) ==> replaced)
    && (replaced ==> HandedOver(phase) || phase == Restoring || phase == Idle || phase == Crashed)
    && (refused != [] ==> replaced)
  }

  /** Served mutations are never forgotten, and session.json is never more than `stale` away. */
  ghost predicate LogInv(first: seq<Id>, log: seq<Mutation>, tabs: seq<Id>, stale: seq<Mutation>, session: seq<Id>) {
    tabs == MutatedAll(first, log) && session == MutatedAll(tabs, stale)
  }

  /** While a successor lives, the predecessor's pumps are stopped and its barrier is held. */
  ghost predicate ReaderInv(phase: Phase, alive: bool, tabs: seq<Id>, terms: map<Id, Term>, count: nat) {
    && (alive ==> Beyond(phase) || HandedOver(phase) || phase == Killing || phase == Crashed)
    && (phase == Spawn || Beyond(phase) || HandedOver(phase) || (phase == Killing && alive) ==> Quiet(terms))
    && (phase == Spawn || Beyond(phase) || HandedOver(phase) ==> count == |tabs|)
    && (phase == Quiesce ==> QuietUpTo(tabs, terms, count))
  }

  /** What a living successor believes is about exactly the predecessor's tabs. */
  ghost predicate BeliefInv(tabs: seq<Id>, s: Successor, toSucc: seq<Msg>) {
    Alive(s) ==>
      && (forall i :: 0 <= i < |toSucc| && toSucc[i].Manifest? ==> toSucc[i].tabs == tabs)
      && (s.phase != Dialing && s.phase != AwaitManifest ==> s.tabs == MutatedAll(tabs, s.log))
      && (s.phase != Serving && s.phase != Owner ==> s.log == [])
  }

  /** What the successor saved and told. */
  ghost predicate SavedInv(phase: Phase, tabs: seq<Id>, s: Successor, toPred: seq<Msg>, stale: seq<Mutation>) {
    && (s.phase == Starting || s.phase == Serving || s.phase == Owner ==> s.saved == Some(tabs))
    && (Alive(s) && s.saved.Some? ==> stale == s.log)
    && (Beyond(phase) && Committed in toPred ==> s.saved == Some(tabs))
    && (HandedOver(phase) ==> s.saved == Some(tabs))
    && (phase == Quiesce || phase == Spawn ==> s == NO_SUCCESSOR)
    && (phase == Idle || phase == Resuming || phase == Restoring || phase == Stuck ==> s.log == [])
  }

  ghost predicate Inv(w: World) {
    && TabsInv(w.tabs, w.terms, w.count)
    && PhaseInv(w.phase, w.replaced, w.refused, w.count)
    && LogInv(w.first, w.log, w.tabs, w.stale, w.session)
    && ReaderInv(w.phase, Alive(w.succ), w.tabs, w.terms, w.count)
    && BeliefInv(w.tabs, w.succ, w.toSucc)
    && SavedInv(w.phase, w.tabs, w.succ, w.toPred, w.stale)
  }

  lemma InitInv(w: World)
    requires Initial(w)
    ensures Inv(w)
  {
  }

  lemma MutatedSnoc(tabs: seq<Id>, ms: seq<Mutation>, m: Mutation)
    ensures MutatedAll(tabs, ms + [m]) == Mutated(MutatedAll(tabs, ms), m)
  {
    assert (ms + [m])[..|ms|] == ms;
  }

  // ----- the predecessor's steps -----

  lemma MutateKeeps(w: World, m: Mutation)
    requires Inv(w) && (w.phase == Idle || w.phase == Gone)
    ensures Inv(Mutate(w, m))
  {
    if !w.replaced {
      MutatedContents(w.tabs, w.terms, m);
      MutatedSnoc(w.first, w.log, m);
    }
  }

  lemma QuietWhenAllBegun(tabs: seq<Id>, terms: map<Id, Term>)
    requires Covers(tabs, terms) && QuietUpTo(tabs, terms, |tabs|)
    ensures Quiet(terms)
  {
    forall id | id in terms ensures !terms[id].pump {
      assert id in tabs;
    }
  }

  lemma BeginKeeps(w: World)
    requires Inv(w) && w.phase == Idle && !w.replaced
    ensures Inv(BeginUpdate(w))
  {
    if w.tabs == [] {
      QuietWhenAllBegun(w.tabs, w.terms);
    }
  }

  lemma QuietNext(tabs: seq<Id>, terms: map<Id, Term>, n: nat, t: Term)
    requires QuietUpTo(tabs, terms, n) && n < |tabs| && tabs[n] in terms && !t.pump
    ensures QuietUpTo(tabs, terms[tabs[n] := t], n + 1)
  {
  }

  /** One more terminal is quiet; the last one opens the way to a successor. */
  lemma OneMoreQuiet(tabs: seq<Id>, terms: map<Id, Term>, count: nat, t: Term)
    requires TabsInv(tabs, terms, count) && QuietUpTo(tabs, terms, count) && count < |tabs| && !t.pump
    ensures var terms', phase := terms[tabs[count] := t], if count + 1 == |tabs| then Spawn else Quiesce;
            TabsInv(tabs, terms', count + 1) && ReaderInv(phase, false, tabs, terms', count + 1)
  {
    var terms' := terms[tabs[count] := t];
    assert tabs[count] in terms;
    QuietNext(tabs, terms, count, t);
    if count + 1 == |tabs| {
      QuietWhenAllBegun(tabs, terms');
    }
  }

  lemma CoversUpdate(tabs: seq<Id>, terms: map<Id, Term>, id: Id, t: Term)
    requires Covers(tabs, terms) && id in terms
    ensures Covers(tabs, terms[id := t])
  {
  }

  /** New terminals, count and phase before there is a successor. */
  lemma QuiescingKeeps(w: World, phase: Phase, terms: map<Id, Term>, count: nat)
    requires Inv(w) && w.phase == Quiesce && (phase == Quiesce || phase == Spawn || phase == Stuck)
    requires TabsInv(w.tabs, terms, count) && ReaderInv(phase, false, w.tabs, terms, count)
    ensures Inv(w.(phase := phase, terms := terms, count := count))
  {
  }

  lemma QuiesceKeeps(w: World, f: BeginFaults)
    requires Inv(w) && CanQuiesce(w)
    ensures Inv(QuiesceNext(w, f))
  {
    var id := w.tabs[w.count];
    var t := Begun(w.terms[id], f);
    match BeginAnswer(w.terms[id], f)
    case Began =>
      OneMoreQuiet(w.tabs, w.terms, w.count, t);
      QuiescingKeeps(w, if w.count + 1 == |w.tabs| then Spawn else Quiesce, w.terms[id := t], w.count + 1);
    case Blocks =>
      CoversUpdate(w.tabs, w.terms, id, t);
      QuiescingKeeps(w, Stuck, w.terms[id := t], w.count);
    case Refused => RollbackKeeps(w);
  }

  lemma RollbackKeeps(w: World)
    requires Inv(w) && (Beyond(w.phase) || w.phase == Spawn || w.phase == Quiesce)
    ensures Inv(Rollback(w))
  {
  }

  lemma SpawnKeeps(w: World, ok: bool)
    requires Inv(w) && w.phase == Spawn
    ensures Inv(SpawnProcess(w, ok))
  {
  }

  lemma ManifestKeeps(w: World, ok: bool)
    requires Inv(w) && w.phase == SendManifest
    ensures Inv(WriteManifest(w, ok))
  {
  }

  lemma FdsKeeps(w: World, sent: nat)
    requires Inv(w) && w.phase == SendFds && sent <= |w.tabs|
    ensures Inv(WriteFds(w, sent))
  {
    var w' := w.(toSucc := w.toSucc + [Fds(w.tabs[..sent])]);
    MessageKeeps(w, Fds(w.tabs[..sent]));
    if sent == |w.tabs| {
      AdvanceKeeps(w', AwaitReady);
    } else {
      RollbackKeeps(w');
    }
  }

  lemma MessageKeeps(w: World, msg: Msg)
    requires Inv(w) && Beyond(w.phase) && !msg.Manifest?
    ensures Inv(w.(toSucc := w.toSucc + [msg]))
  {
    var more := w.toSucc + [msg];
    assert forall i :: 0 <= i < |more| && more[i].Manifest? ==> i < |w.toSucc| && more[i] == w.toSucc[i];
    assert BeliefInv(w.tabs, w.succ, more);
  }

  lemma AdvanceKeeps(w: World, phase: Phase)
    requires Inv(w) && Beyond(w.phase) && Beyond(phase)
    ensures Inv(w.(phase := phase))
  {
  }

  lemma CommitKeeps(w: World, delivered: bool, ok: bool)
    requires Inv(w) && w.phase == SendCommit
    ensures Inv(WriteCommit(w, delivered, ok))
  {
    var w' := if delivered then w.(toSucc := w.toSucc + [Commit]) else w;
    MessageKeeps(w, Commit);
    if ok {
      AdvanceKeeps(w', AwaitCommitted);
    } else {
      RollbackKeeps(w');
    }
  }

  lemma ReadKeeps(w: World, ok: bool)
    requires Inv(w) && CanRead(w, ok)
    ensures Inv(ReadReply(w, ok))
  {
  }

  lemma PrepareKeeps(w: World, ok: bool)
    requires Inv(w) && w.phase == Prepare
    ensures Inv(PrepareReplacement(w, ok))
  {
  }

  lemma ReleaseKeeps(w: World)
    requires Inv(w) && w.phase == Releasing
    ensures Inv(ReleaseNext(w))
  {
    if w.next < |w.tabs| && w.tabs[w.next] in w.terms {
      CoversUpdate(w.tabs, w.terms, w.tabs[w.next], ReleasedTerm(w.terms[w.tabs[w.next]]));
    }
  }

  lemma KillKeeps(w: World)
    requires Inv(w) && w.phase == Killing
    ensures Inv(KillAndReap(w))
  {
  }

  lemma RestoreKeeps(w: World, starts: bool)
    requires Inv(w) && w.phase == Restoring
    ensures Inv(RestoreNext(w, starts))
  {
    if w.next < w.count && w.next < |w.tabs| && w.tabs[w.next] in w.terms {
      CoversUpdate(w.tabs, w.terms, w.tabs[w.next], RolledBack(w.terms[w.tabs[w.next]], starts));
    }
  }

  lemma ResumeKeeps(w: World, ok: bool)
    requires Inv(w) && w.phase == Resuming
    ensures Inv(ResumeOwnership(w, ok))
  {
  }

  // ----- the successor's steps -----

  /** Whatever the successor does, the predecessor's own part of the invariant stands. */
  lemma SuccessorPart(w: World, r: World)
    requires Inv(w)
    requires r == w.(succ := r.succ, toSucc := r.toSucc, toPred := r.toPred, session := r.session, stale := r.stale)
    requires Alive(r.succ) ==> Alive(w.succ)
    requires LogInv(w.first, w.log, w.tabs, r.stale, r.session)
    requires BeliefInv(w.tabs, r.succ, r.toSucc) && SavedInv(w.phase, w.tabs, r.succ, r.toPred, r.stale)
    ensures Inv(r)
  {
  }

  lemma TellKeeps(w: World)
    requires Inv(w) && Telling(w.succ.phase).Some?
    ensures Inv(Tell(w))
  {
    TellBelief(w.tabs, w.succ, w.toSucc);
    TellSaved(w.phase, w.tabs, w.succ, w.toPred, w.stale);
    SuccessorPart(w, Tell(w));
  }

  lemma TellBelief(tabs: seq<Id>, s: Successor, toSucc: seq<Msg>)
    requires BeliefInv(tabs, s, toSucc) && Telling(s.phase).Some?
    ensures BeliefInv(tabs, s.(phase := Telling(s.phase).value.1), toSucc)
  {
  }

  lemma TellSaved(phase: Phase, tabs: seq<Id>, s: Successor, toPred: seq<Msg>, stale: seq<Mutation>)
    requires SavedInv(phase, tabs, s, toPred, stale) && Telling(s.phase).Some?
    ensures SavedInv(phase, tabs, s.(phase := Telling(s.phase).value.1), toPred + [Telling(s.phase).value.0], stale)
  {
    assert Committed in toPred + [Telling(s.phase).value.0] ==> Committed in toPred || s.phase == Serving;
  }

  lemma TakeBelief(tabs: seq<Id>, s: Successor, toSucc: seq<Msg>)
    requires BeliefInv(tabs, s, toSucc) && toSucc != [] && Alive(s)
    ensures forall i :: 0 <= i < |toSucc[1..]| && toSucc[1..][i].Manifest? ==> toSucc[1..][i].tabs == tabs
    ensures toSucc[0].Manifest? ==> toSucc[0].tabs == tabs
  {
  }

  lemma TakeKeeps(w: World)
    requires Inv(w) && CanTake(w)
    ensures Inv(Take(w))
  {
    TakeBelief(w.tabs, w.succ, w.toSucc);
    assert MutatedAll(w.tabs, []) == w.tabs;
    SuccessorPart(w, Take(w));
  }

  lemma AdoptKeeps(w: World)
    requires Inv(w) && w.succ.phase == Adopting
    ensures Inv(Adopt(w))
  {
    SuccessorPart(w, Adopt(w));
  }

  lemma ActivateKeeps(w: World)
    requires Inv(w) && w.succ.phase == Activating
    ensures Inv(ActivateNext(w))
  {
    SuccessorPart(w, ActivateNext(w));
  }

  lemma PersistKeeps(w: World)
    requires Inv(w) && w.succ.phase == Persisting
    ensures Inv(Persist(w))
  {
    assert MutatedAll(w.tabs, []) == w.tabs;
    SuccessorPart(w, Persist(w));
  }

  lemma SuccessorMutateKeeps(w: World, m: Mutation)
    requires Inv(w) && (w.succ.phase == Serving || w.succ.phase == Owner)
    ensures Inv(SuccessorMutate(w, m))
  {
    var s, terms := w.succ, TermsAfter(w.succ.terms, m);
    ServedComponents(w.first, w.log, w.phase, w.tabs, s, w.toSucc, w.toPred, w.stale, w.session, terms, m);
    ServedPart(w, Served(s, terms, m), Mutated(s.tabs, m), w.stale + [m]);
  }

  lemma ServedComponents(first: seq<Id>, log: seq<Mutation>, phase: Phase, tabs: seq<Id>, s: Successor, toSucc: seq<Msg>,
                         toPred: seq<Msg>, stale: seq<Mutation>, was: seq<Id>, terms: map<Id, Term>, m: Mutation)
    requires LogInv(first, log, tabs, stale, was) && BeliefInv(tabs, s, toSucc) && SavedInv(phase, tabs, s, toPred, stale)
    requires s.phase == Serving || s.phase == Owner
    requires phase == Idle || phase == Resuming || phase == Restoring || phase == Stuck ==> !Alive(s)
    ensures LogInv(first, log, tabs, stale + [m], Mutated(s.tabs, m))
    ensures BeliefInv(tabs, Served(s, terms, m), toSucc) && SavedInv(phase, tabs, Served(s, terms, m), toPred, stale + [m])
  {
    ServedBelief(tabs, s, toSucc, terms, m);
    ServedSaved(phase, tabs, s, toPred, stale, terms, m);
    ServedLog(first, log, tabs, stale, was, s.tabs, Mutated(s.tabs, m), m);
  }

  lemma ServedPart(w: World, s: Successor, session: seq<Id>, stale: seq<Mutation>)
    requires Inv(w) && Alive(w.succ) && LogInv(w.first, w.log, w.tabs, stale, session)
    requires BeliefInv(w.tabs, s, w.toSucc) && SavedInv(w.phase, w.tabs, s, w.toPred, stale)
    ensures Inv(w.(succ := s, session := session, stale := stale))
  {
    SuccessorPart(w, w.(succ := s, session := session, stale := stale));
  }

  lemma ServedLog(first: seq<Id>, log: seq<Mutation>, tabs: seq<Id>, stale: seq<Mutation>, was: seq<Id>, served: seq<Id>,
                  session: seq<Id>, m: Mutation)
    requires LogInv(first, log, tabs, stale, was) && served == MutatedAll(tabs, stale) && session == Mutated(served, m)
    ensures LogInv(first, log, tabs, stale + [m], session)
  {
    MutatedSnoc(tabs, stale, m);
  }

  function Served(s: Successor, terms: map<Id, Term>, m: Mutation): (r: Successor) {
    s.(tabs := Mutated(s.tabs, m), terms := terms, log := s.log + [m])
  }

  lemma ServedBelief(tabs: seq<Id>, s: Successor, toSucc: seq<Msg>, terms: map<Id, Term>, m: Mutation)
    requires BeliefInv(tabs, s, toSucc) && (s.phase == Serving || s.phase == Owner)
    ensures s.tabs == MutatedAll(tabs, s.log) && BeliefInv(tabs, Served(s, terms, m), toSucc)
  {
    MutatedSnoc(tabs, s.log, m);
  }

  lemma ServedSaved(phase: Phase, tabs: seq<Id>, s: Successor, toPred: seq<Msg>, stale: seq<Mutation>,
                    terms: map<Id, Term>, m: Mutation)
    requires SavedInv(phase, tabs, s, toPred, stale) && (s.phase == Serving || s.phase == Owner)
    requires phase == Idle || phase == Resuming || phase == Restoring || phase == Stuck ==> !Alive(s)
    ensures stale == s.log && SavedInv(phase, tabs, Served(s, terms, m), toPred, stale + [m])
  {
  }

  predicate BySuccessor(a: Action) {
    || a.DoTell? || a.DoTake? || a.DoAdopt? || a.DoActivate? || a.DoPersist? || a.DoStart?
    || a.DoSuccessorMutate? || a.SuccessorDies?
  }

  lemma SuccessorStepKeeps(w: World, a: Action)
    requires Inv(w) && Enabled(w, a) && BySuccessor(a)
    ensures Inv(Step(w, a))
  {
    match a
    case DoTell => TellKeeps(w);
    case DoTake => TakeKeeps(w);
    case DoAdopt => AdoptKeeps(w);
    case DoActivate => ActivateKeeps(w);
    case DoPersist => PersistKeeps(w);
    case DoStart => SuccessorPart(w, Step(w, a));
    case DoSuccessorMutate(m) => SuccessorMutateKeeps(w, m);
    case SuccessorDies => SuccessorPart(w, Step(w, a));
  }

  lemma SendingKeeps(w: World, a: Action)
    requires Inv(w) && Enabled(w, a)
    requires a.DoSpawn? || a.DoManifest? || a.DoFds? || a.DoCommit? || a.DoRead? || a.DoPrepare?
    ensures Inv(Step(w, a))
  {
    match a
    case DoSpawn(ok) => SpawnKeeps(w, ok);
    case DoManifest(ok) => ManifestKeeps(w, ok);
    case DoFds(sent) => FdsKeeps(w, sent);
    case DoCommit(delivered, ok) => CommitKeeps(w, delivered, ok);
    case DoRead(ok) => ReadKeeps(w, ok);
    case DoPrepare(ok) => PrepareKeeps(w, ok);
  }

  lemma DeathKeeps(w: World)
    requires Inv(w) && Enabled(w, PredecessorDies)
    ensures Inv(Step(w, PredecessorDies))
  {
  }

  lemma UndoingKeeps(w: World, a: Action)
    requires Inv(w) && Enabled(w, a)
    requires a.DoKill? || a.DoResume? || a.DoRestore? || a.PredecessorDies?
    ensures Inv(Step(w, a))
  {
    match a
    case DoKill => KillKeeps(w);
    case DoResume(ok) => ResumeKeeps(w, ok);
    case DoRestore(starts) => RestoreKeeps(w, starts);
    case PredecessorDies => DeathKeeps(w);
  }

  lemma OwningKeeps(w: World, a: Action)
    requires Inv(w) && Enabled(w, a)
    requires a.DoMutate? || a.DoBegin? || a.DoQuiesce? || a.DoRelease?
    ensures Inv(Step(w, a))
  {
    match a
    case DoMutate(m) => MutateKeeps(w, m);
    case DoBegin => BeginKeeps(w);
    case DoQuiesce(f) => QuiesceKeeps(w, f);
    case DoRelease => ReleaseKeeps(w);
  }

  lemma StepKeeps(w: World, a: Action)
    requires Inv(w) && Enabled(w, a)
    ensures Inv(Step(w, a))
  {
    if BySuccessor(a) {
      SuccessorStepKeeps(w, a);
    } else if a.DoMutate? || a.DoBegin? || a.DoQuiesce? || a.DoRelease? {
      OwningKeeps(w, a);
    } else if a.DoKill? || a.DoResume? || a.DoRestore? || a.PredecessorDies? {
      UndoingKeeps(w, a);
    } else {
      SendingKeeps(w, a);
    }
  }

  // ----- which terminals are held for the handoff -----

  predicate Live(t: Term) {
    t.state == Running && !t.closed && t.pty && !t.handoffPTY && t.renderer
  }

  predicate Held(t: Term) {
    t.state == Quiesced && !t.closed && t.handoffPTY && !t.pty && !t.renderer && !t.pump
  }

  /** Tabs `lo..hi` are held; the others run normally. */
  ghost predicate Shape(tabs: seq<Id>, terms: map<Id, Term>, lo: nat, hi: nat) {
    forall i :: 0 <= i < |tabs| && tabs[i] in terms ==>
                  if lo <= i < hi then Held(terms[tabs[i]]) else Live(terms[tabs[i]])
  }

  ghost predicate ShapeInv(phase: Phase, tabs: seq<Id>, terms: map<Id, Term>, count: nat, next: nat) {
    && (!HandedOver(phase) && phase != Crashed && phase != Stuck ==>
          Shape(tabs, terms, if phase == Restoring then next else 0, count))
    && (phase == Quiesce || phase == Killing || phase == Resuming ==> next == 0)
    && (phase == Restoring ==> next <= count)
  }

  ghost predicate Shaped(w: World) {
    ShapeInv(w.phase, w.tabs, w.terms, w.count, w.next)
  }

  lemma ShapeBegins(tabs: seq<Id>, terms: map<Id, Term>, k: nat, f: BeginFaults)
    requires Distinct(tabs) && Shape(tabs, terms, 0, k) && k < |tabs| && tabs[k] in terms
    requires CanBegin(terms[tabs[k]], f)
    ensures Shape(tabs, terms[tabs[k] := Begun(terms[tabs[k]], f)], 0, k + 1)
  {
    assert Live(terms[tabs[k]]);
  }

  lemma ShapeRestores(tabs: seq<Id>, terms: map<Id, Term>, k: nat, hi: nat, starts: bool)
    requires Distinct(tabs) && Shape(tabs, terms, k, hi) && k < hi <= |tabs| && tabs[k] in terms
    ensures Shape(tabs, terms[tabs[k] := RolledBack(terms[tabs[k]], starts)], k + 1, hi)
  {
    assert Held(terms[tabs[k]]);
  }

  lemma ShapeMutates(tabs: seq<Id>, terms: map<Id, Term>, m: Mutation)
    requires Distinct(tabs) && Covers(tabs, terms) && Shape(tabs, terms, 0, 0)
    ensures Shape(Mutated(tabs, m), TermsAfter(terms, m), 0, 0)
  {
    MutatedContents(tabs, terms, m);
    var tabs', terms' := Mutated(tabs, m), TermsAfter(terms, m);
    forall i | 0 <= i < |tabs'| && tabs'[i] in terms' ensures Live(terms'[tabs'[i]]) {
      if tabs'[i] in terms {
        assert tabs'[i] in tabs;
      }
    }
  }

  predicate ChangesTerms(a: Action) {
    a.DoMutate? || a.DoQuiesce? || a.DoRelease? || a.DoRestore?
  }

  /** The successor touches nothing of the predecessor's. */
  lemma SuccessorFrame(w: World, a: Action)
    requires Enabled(w, a) && BySuccessor(a)
    ensures var r := Step(w, a);
            r.phase == w.phase && r.tabs == w.tabs && r.terms == w.terms && r.count == w.count && r.next == w.next
  {
  }

  predicate Sends(a: Action) {
    a.DoSpawn? || a.DoManifest? || a.DoFds? || a.DoCommit? || a.DoRead? || a.DoPrepare?
  }

  /** The terminals are left alone, and the update goes on, hands over, or falls back to killing. */
  ghost predicate Proceeds(w: World, r: World) {
    && r.tabs == w.tabs && r.terms == w.terms && r.count == w.count
    && r.first == w.first && r.log == w.log && r.refused == w.refused
    && (r.phase == Killing || Beyond(r.phase) || r.phase == Releasing) && (r.phase == Killing ==> r.next == 0)
    && (w.phase == Spawn || Beyond(w.phase))
  }

  lemma WriteProceeds(w: World, a: Action)
    requires Enabled(w, a) && (a.DoSpawn? || a.DoManifest? || a.DoFds?)
    ensures Proceeds(w, Step(w, a))
  {
    match a
    case DoSpawn(ok) => assert Proceeds(w, SpawnProcess(w, ok));
    case DoManifest(ok) => assert Proceeds(w, WriteManifest(w, ok));
    case DoFds(sent) => assert Proceeds(w, WriteFds(w, sent));
  }

  lemma SendProceeds(w: World, a: Action)
    requires Enabled(w, a) && Sends(a)
    ensures Proceeds(w, Step(w, a))
  {
    match a
    case DoCommit(delivered, ok) => assert Proceeds(w, WriteCommit(w, delivered, ok));
    case DoPrepare(ok) => assert Proceeds(w, PrepareReplacement(w, ok));
    case DoRead(ok) => ReadProceeds(w, ok);
    case _ => WriteProceeds(w, a);
  }

  lemma ReadProceeds(w: World, ok: bool)
    requires CanRead(w, ok)
    ensures Proceeds(w, ReadReply(w, ok))
  {
  }

  lemma ProceedsKeepsShape(w: World, r: World)
    requires Shaped(w) && Proceeds(w, r)
    ensures Shaped(r)
  {
  }

  /** So do the steps that begin an update, kill, resume or die. */
  lemma ControlFrame(w: World, a: Action)
    requires Enabled(w, a) && (a.DoBegin? || a.DoKill? || a.DoResume? || a.PredecessorDies?)
    ensures var r := Step(w, a);
            && r.tabs == w.tabs && r.terms == w.terms
            && match a
               case DoBegin => w.phase == Idle && r.count == r.next == 0 && (r.phase == Spawn || r.phase == Quiesce)
               case DoKill => w.phase == Killing && r.count == w.count && r.next == w.next && (r.phase == Resuming || r.phase == Restoring)
               case DoResume(_) => w.phase == Resuming && r.count == w.count && r.next == w.next && r.phase == Restoring
               case _ => r.phase == Crashed
  {
  }

  lemma OthersKeepShape(w: World, a: Action)
    requires Inv(w) && Shaped(w) && Enabled(w, a) && !ChangesTerms(a)
    ensures Shaped(Step(w, a))
  {
    if BySuccessor(a) {
      SuccessorFrame(w, a);
    } else if Sends(a) {
      SendProceeds(w, a);
      ProceedsKeepsShape(w, Step(w, a));
    } else {
      ControlFrame(w, a);
    }
  }

  lemma MutateKeepsShape(w: World, m: Mutation)
    requires Inv(w) && Shaped(w) && (w.phase == Idle || w.phase == Gone)
    ensures Shaped(Mutate(w, m))
  {
    if !w.replaced {
      ShapeMutates(w.tabs, w.terms, m);
    }
  }

  lemma QuiesceKeepsShape(w: World, f: BeginFaults)
    requires Inv(w) && Shaped(w) && CanQuiesce(w)
    ensures Shaped(QuiesceNext(w, f))
  {
    if CanBegin(w.terms[w.tabs[w.count]], f) {
      ShapeBegins(w.tabs, w.terms, w.count, f);
    }
  }

  lemma RestoreKeepsShape(w: World, starts: bool)
    requires Inv(w) && Shaped(w) && w.phase == Restoring
    ensures Shaped(RestoreNext(w, starts))
  {
    if w.next < w.count {
      ShapeRestores(w.tabs, w.terms, w.next, w.count, starts);
    }
  }

  lemma ReleaseKeepsShape(w: World)
    requires Shaped(w) && w.phase == Releasing
    ensures Shaped(ReleaseNext(w))
  {
  }

  lemma StepKeepsShape(w: World, a: Action)
    requires Inv(w) && Shaped(w) && Enabled(w, a)
    ensures Shaped(Step(w, a))
  {
    if ChangesTerms(a) {
      TermStepKeepsShape(w, a);
    } else {
      OthersKeepShape(w, a);
    }
  }

  lemma TermStepKeepsShape(w: World, a: Action)
    requires Inv(w) && Shaped(w) && Enabled(w, a) && ChangesTerms(a)
    ensures Shaped(Step(w, a))
  {
    match a
    case DoMutate(m) => MutateKeepsShape(w, m);
    case DoQuiesce(f) => QuiesceKeepsShape(w, f);
    case DoRelease => ReleaseKeepsShape(w);
    case DoRestore(starts) => RestoreKeepsShape(w, starts);
  }

  // ----- runs -----

  lemma {:induction false} Reachable(w: World, acts: seq<Action>)
    requires Initial(w) && Possible(w, acts)
    ensures Inv(Final(w, acts)) && Shaped(Final(w, acts))
    decreases |acts|
  {
    if acts == [] {
      InitInv(w);
    } else {
      var front, a := acts[..|acts| - 1], acts[|acts| - 1];
      Reachable(w, front);
      StepKeeps(Final(w, front), a);
      StepKeepsShape(Final(w, front), a);
    }
  }
}
