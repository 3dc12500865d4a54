/**
  The live daemon handoff as a two-process protocol. Every step of the predecessor
  can fail, either process can die at any moment, and messages travel through two
  queues. The update barrier is the predecessor's phase: a tab mutation is only
  looked at while no update holds it.
  */
module HandoffProtocol {
  import opened Wrappers
  import opened HandoffTerminal

  type Id = nat

  /** `group` is the set of tabs on the moved tab's target. */
  datatype Mutation = Open(id: Id) | Close(id: Id) | Move(id: Id, later: bool, group: set<Id>)

  function Without(tabs: seq<Id>, id: Id): (r: seq<Id>) {
    if tabs == [] then [] else if tabs[0] == id then tabs[1..] else [tabs[0]] + Without(tabs[1..], id)
  }

  function IndexOf(tabs: seq<Id>, id: Id): (k: nat)
    requires id in tabs
    ensures k < |tabs| && tabs[k] == id
  {
    if tabs[0] == id then 0 else 1 + IndexOf(tabs[1..], id)
  }

  function Beside(k: int, later: bool): (j: int) {
    if later then k + 1 else k - 1
  }

  /** The first tab of the group from `j` on, in the direction asked for. */
  function Neighbor(tabs: seq<Id>, j: int, later: bool, group: set<Id>): (n: Option<nat>)
    ensures n.Some? ==> n.value < |tabs|
    decreases if later then |tabs| - j else j + 1
  {
    if !(0 <= j < |tabs|) then None
    else if tabs[j] in group then Some(j)
    else Neighbor(tabs, Beside(j, later), later, group)
  }

  /** A tab changes places with the next one on its target. */
  function Moved(tabs: seq<Id>, k: nat, later: bool, group: set<Id>): (r: seq<Id>)
    requires k < |tabs|
  {
    var n := Neighbor(tabs, Beside(k, later), later, group);
    if n.None? then tabs else tabs[k := tabs[n.value]][n.value := tabs[k]]
  }

  function Mutated(tabs: seq<Id>, m: Mutation): (r: seq<Id>) {
    match m
    case Open(id) => if id in tabs then tabs else tabs + [id]
    case Close(id) => Without(tabs, id)
    case Move(id, later, group) => if id in tabs then Moved(tabs, IndexOf(tabs, id), later, group) else tabs
  }

  function MutatedAll(tabs: seq<Id>, ms: seq<Mutation>): (r: seq<Id>) {
    if ms == [] then tabs else Mutated(MutatedAll(tabs, ms[..|ms| - 1]), ms[|ms| - 1])
  }

  function TermsAfter(terms: map<Id, Term>, m: Mutation): (r: map<Id, Term>) {
    match m
    case Open(id) => if id in terms then terms else terms[id := OPENED]
    case Close(id) => terms - {id}
    case Move(_, _, _) => terms
  }

  datatype Msg = Hello | Ready | Committed | Manifest(tabs: seq<Id>) | Fds(ids: seq<Id>) | Commit

  datatype Phase =
    | Idle | Quiesce | Spawn | AwaitHello | SendManifest | SendFds | AwaitReady | Prepare | SendCommit
    | AwaitCommitted | Releasing | Gone
    | Killing | Resuming | Restoring
    | Stuck | Crashed

  datatype SuccessorPhase =
    | Absent | Dialing | AwaitManifest | AwaitFds | Adopting | Adopted | AwaitCommit | Activating | Persisting
    | Starting | Serving | Owner | Dead

  /** `saved` is the tab set the successor wrote to session.json; `log` what it served since. */
  datatype Successor = Successor(phase: SuccessorPhase, tabs: seq<Id>, fds: set<Id>, terms: map<Id, Term>,
                                 active: nat, saved: Option<seq<Id>>, log: seq<Mutation>)

  const NO_SUCCESSOR := Successor(Absent, [], {}, map[], 0, None, [])

  /**
    `log` and `refused` are the mutations this daemon served and turned away;
    `stale` is what a successor served since session.json last equalled `tabs`.
    */
  datatype World = World(phase: Phase, replaced: bool, prepared: bool,
                         first: seq<Id>, log: seq<Mutation>, refused: seq<Mutation>,
                         tabs: seq<Id>, terms: map<Id, Term>, count: nat, next: nat,
                         succ: Successor, toSucc: seq<Msg>, toPred: seq<Msg>, session: seq<Id>, stale: seq<Mutation>)

  predicate Alive(s: Successor) {
    s.phase != Absent && s.phase != Dead
  }

  predicate SuccessorReads(w: World, id: Id) {
    Alive(w.succ) && id in w.succ.terms && w.succ.terms[id].pump
  }

  predicate PredecessorReads(w: World, id: Id) {
    w.phase != Crashed && id in w.terms && w.terms[id].pump
  }

  // ----- the predecessor's steps -----

  /** Every failure path of `update`: kill and reap if there is a process, then restore. */
  function Rollback(w: World): (r: World) {
    w.(phase := Killing, next := 0)
  }

  /** A tab mutation that got through the barrier: refused by a replaced daemon, else served. */
  function Mutate(w: World, m: Mutation): (r: World) {
    if w.replaced then w.(refused := w.refused + [m])
    else w.(tabs := Mutated(w.tabs, m), terms := TermsAfter(w.terms, m), log := w.log + [m],
            session := Mutated(w.tabs, m), stale := [])
  }

  /** A new update knows no successor yet. */
  function BeginUpdate(w: World): (r: World) {
    w.(phase := if w.tabs == [] then Spawn else Quiesce, count := 0, next := 0, prepared := false, succ := NO_SUCCESSOR)
  }

  predicate CanQuiesce(w: World) {
    w.phase == Quiesce && w.count < |w.tabs| && w.tabs[w.count] in w.terms
  }

  function QuiesceNext(w: World, f: BeginFaults): (r: World)
    requires CanQuiesce(w)
  {
    var id := w.tabs[w.count];
    var w' := w.(terms := w.terms[id := Begun(w.terms[id], f)]);
    match BeginAnswer(w.terms[id], f)
    case Began => w'.(count := w.count + 1, phase := if w.count + 1 == |w.tabs| then Spawn else Quiesce)
    case Blocks => w'.(phase := Stuck)
    case Refused => Rollback(w)
  }

  function SpawnProcess(w: World, ok: bool): (r: World) {
    if ok then w.(phase := AwaitHello, succ := NO_SUCCESSOR.(phase := Dialing), toSucc := [], toPred := [])
    else Rollback(w)
  }

  function WriteManifest(w: World, ok: bool): (r: World) {
    if ok then w.(phase := SendFds, toSucc := w.toSucc + [Manifest(w.tabs)]) else Rollback(w)
  }

  /** Descriptors go out in batches; stopping short is a failure. */
  function WriteFds(w: World, sent: nat): (r: World)
    requires sent <= |w.tabs|
  {
    var w' := w.(toSucc := w.toSucc + [Fds(w.tabs[..sent])]);
    if sent == |w.tabs| then w'.(phase := AwaitReady) else Rollback(w')
  }

  /** A commit may reach the successor even though the write reports an error. */
  function WriteCommit(w: World, delivered: bool, ok: bool): (r: World) {
    var w' := if delivered then w.(toSucc := w.toSucc + [Commit]) else w;
    if ok then w'.(phase := AwaitCommitted) else Rollback(w')
  }

  function Expected(phase: Phase): (m: Option<Msg>) {
    match phase
    case AwaitHello => Some(Hello)
    case AwaitReady => Some(Ready)
    case AwaitCommitted => Some(Committed)
    case _ => None
  }

  predicate CanRead(w: World, ok: bool) {
    Expected(w.phase).Some? && (ok ==> w.toPred != [] && w.toPred[0] == Expected(w.phase).value)
  }

  /** Reading the successor's next message; anything but the expected one fails the update. */
  function ReadReply(w: World, ok: bool): (r: World)
    requires CanRead(w, ok)
  {
    if !ok then Rollback(w)
    else
      var w' := w.(toPred := w.toPred[1..]);
      match w.phase
      case AwaitHello => w'.(phase := SendManifest)
      case AwaitReady => w'.(phase := Prepare)
      case _ => w'.(phase := Releasing, replaced := true, next := 0)
  }

  function PrepareReplacement(w: World, ok: bool): (r: World) {
    if ok then w.(phase := SendCommit, prepared := true) else Rollback(w)
  }

  function ReleaseNext(w: World): (r: World) {
    if w.next < |w.tabs| && w.tabs[w.next] in w.terms
    then w.(terms := w.terms[w.tabs[w.next] := ReleasedTerm(w.terms[w.tabs[w.next]])], next := w.next + 1)
    else w.(phase := Gone)
  }

  /** A reaped process leaves nothing but what it wrote. */
  function KillAndReap(w: World): (r: World) {
    w.(succ := NO_SUCCESSOR.(phase := Dead), phase := if w.prepared then Resuming else Restoring)
  }

  function ResumeOwnership(w: World, ok: bool): (r: World) {
    w.(phase := Restoring, replaced := !ok)
  }

  function RestoreNext(w: World, starts: bool): (r: World) {
    if w.next < w.count && w.next < |w.tabs| && w.tabs[w.next] in w.terms
    then w.(terms := w.terms[w.tabs[w.next] := RolledBack(w.terms[w.tabs[w.next]], starts)], next := w.next + 1)
    else w.(phase := Idle, count := 0)
  }

  // ----- the successor's steps -----

  function Telling(phase: SuccessorPhase): (m: Option<(Msg, SuccessorPhase)>) {
    match phase
    case Dialing => Some((Hello, AwaitManifest))
    case Adopted => Some((Ready, AwaitCommit))
    case Serving => Some((Committed, Owner))
    case _ => None
  }

  function Tell(w: World): (r: World)
    requires Telling(w.succ.phase).Some?
  {
    var (m, phase) := Telling(w.succ.phase).value;
    w.(succ := w.succ.(phase := phase), toPred := w.toPred + [m])
  }

  predicate CanTake(w: World) {
    w.toSucc != [] &&
    match w.toSucc[0]
    case Manifest(tabs) => w.succ.phase == AwaitManifest
    case Fds(ids) => w.succ.phase == AwaitFds
    case Commit => w.succ.phase == AwaitCommit
    case _ => false
  }

  function Take(w: World): (r: World)
    requires CanTake(w)
  {
    var s, m := w.succ, w.toSucc[0];
    var s' :=
      match m
      case Manifest(tabs) => s.(phase := AwaitFds, tabs := tabs)
      case Fds(ids) =>
        var fds := s.fds + set id | id in ids;
        s.(phase := if forall id :: id in s.tabs ==> id in fds then Adopting else AwaitFds, fds := fds)
      case _ => s.(phase := Activating, active := 0);
    w.(succ := s', toSucc := w.toSucc[1..])
  }

  function Adopt(w: World): (r: World) {
    w.(succ := w.succ.(phase := Adopted, terms := map id | id in w.succ.tabs :: ADOPTED))
  }

  function ActivateNext(w: World): (r: World) {
    var s := w.succ;
    if s.active < |s.tabs| && s.tabs[s.active] in s.terms
    then w.(succ := s.(terms := s.terms[s.tabs[s.active] := Activated(s.terms[s.tabs[s.active]])],
                       active := s.active + 1))
    else w.(succ := s.(phase := Persisting))
  }

  function Persist(w: World): (r: World) {
    w.(succ := w.succ.(phase := Starting, saved := Some(w.succ.tabs)), session := w.succ.tabs, stale := [])
  }

  function SuccessorMutate(w: World, m: Mutation): (r: World) {
    var s := w.succ;
    w.(succ := s.(tabs := Mutated(s.tabs, m), terms := TermsAfter(s.terms, m), log := s.log + [m]),
       session := Mutated(s.tabs, m), stale := w.stale + [m])
  }

  // ----- the transition system -----

  datatype Action =
    | DoMutate(m: Mutation) | DoBegin | DoQuiesce(faults: BeginFaults) | DoSpawn(ok: bool)
    | DoManifest(ok: bool) | DoFds(sent: nat) | DoCommit(delivered: bool, ok: bool) | DoRead(ok: bool)
    | DoPrepare(ok: bool) | DoRelease | DoKill | DoResume(ok: bool) | DoRestore(starts: bool) | PredecessorDies
    | DoTell | DoTake | DoAdopt | DoActivate | DoPersist | DoStart | DoSuccessorMutate(m: Mutation)
    | SuccessorDies

  predicate Enabled(w: World, a: Action) {
    match a
    case DoMutate(m) => w.phase == Idle || w.phase == Gone
    case DoBegin => w.phase == Idle && !w.replaced
    case DoQuiesce(f) => CanQuiesce(w)
    case DoSpawn(ok) => w.phase == Spawn
    case DoManifest(ok) => w.phase == SendManifest
    case DoFds(sent) => w.phase == SendFds && sent <= |w.tabs|
    case DoCommit(delivered, ok) => w.phase == SendCommit && (ok ==> delivered)
    case DoRead(ok) => CanRead(w, ok)
    case DoPrepare(ok) => w.phase == Prepare
    case DoRelease => w.phase == Releasing
    case DoKill => w.phase == Killing
    case DoResume(ok) => w.phase == Resuming
    case DoRestore(starts) => w.phase == Restoring
    case PredecessorDies => w.phase != Crashed
    case DoTell => Telling(w.succ.phase).Some?
    case DoTake => CanTake(w)
    case DoAdopt => w.succ.phase == Adopting
    case DoActivate => w.succ.phase == Activating
    case DoPersist => w.succ.phase == Persisting
    case DoStart => w.succ.phase == Starting
    case DoSuccessorMutate(m) => w.succ.phase == Serving || w.succ.phase == Owner
    case SuccessorDies => Alive(w.succ)
  }

  function Step(w: World, a: Action): (r: World)
    requires Enabled(w, a)
  {
    match a
    case DoMutate(m) => Mutate(w, m)
    case DoBegin => BeginUpdate(w)
    case DoQuiesce(f) => QuiesceNext(w, f)
    case DoSpawn(ok) => SpawnProcess(w, ok)
    case DoManifest(ok) => WriteManifest(w, ok)
    case DoFds(sent) => WriteFds(w, sent)
    case DoCommit(delivered, ok) => WriteCommit(w, delivered, ok)
    case DoRead(ok) => ReadReply(w, ok)
    case DoPrepare(ok) => PrepareReplacement(w, ok)
    case DoRelease => ReleaseNext(w)
    case DoKill => KillAndReap(w)
    case DoResume(ok) => ResumeOwnership(w, ok)
    case DoRestore(starts) => RestoreNext(w, starts)
    case PredecessorDies => w.(phase := Crashed)
    case DoTell => Tell(w)
    case DoTake => Take(w)
    case DoAdopt => Adopt(w)
    case DoActivate => ActivateNext(w)
    case DoPersist => Persist(w)
    case DoStart => w.(succ := w.succ.(phase := Serving))
    case DoSuccessorMutate(m) => SuccessorMutate(w, m)
    case SuccessorDies => w.(succ := w.succ.(phase := Dead))
  }

  // ----- runs -----

  ghost predicate Possible(w: World, acts: seq<Action>)
    decreases |acts|, 1
  {
    acts == [] ||
    var front := acts[..|acts| - 1];
    Possible(w, front) && Enabled(Final(w, front), acts[|acts| - 1])
  }

  ghost function Final(w: World, acts: seq<Action>): (end: World)
    requires Possible(w, acts)
    decreases |acts|, 2
  {
    if acts == [] then w else Step(Final(w, acts[..|acts| - 1]), acts[|acts| - 1])
  }

  /** A daemon that owns some tabs and has never been asked to update. */
  ghost predicate Initial(w: World) {
    && w.phase == Idle && !w.replaced && !w.prepared
    && w.log == [] && w.refused == [] && w.tabs == w.first == w.session
    && Distinct(w.tabs)
    && w.terms == (map id | id in w.tabs :: OPENED)
    && w.succ == NO_SUCCESSOR && w.toSucc == [] && w.toPred == [] && w.stale == []
    && w.count == w.next == 0
  }

  ghost predicate Distinct(tabs: seq<Id>) {
    forall i, j :: 0 <= i < j < |tabs| ==> tabs[i] != tabs[j]
  }

  // ----- tab sets -----

  lemma {:induction false} WithoutContents(tabs: seq<Id>, id: Id)
    requires Distinct(tabs)
    ensures Distinct(Without(tabs, id))
    ensures forall x :: x in Without(tabs, id) <==> x in tabs && x != id
  {
    if tabs != [] {
      var rest := tabs[1..];
      WithoutContents(rest, id);
      assert tabs == [tabs[0]] + rest;
      assert tabs[0] !in rest;
    }
  }

  lemma MutatedContents(tabs: seq<Id>, terms: map<Id, Term>, m: Mutation)
    requires Distinct(tabs) && Covers(tabs, terms)
    ensures Distinct(Mutated(tabs, m)) && Covers(Mutated(tabs, m), TermsAfter(terms, m))
  {
    match m
    case Open(id) =>
    case Close(id) => WithoutContents(tabs, id);
    case Move(id, later, group) => if id in tabs { MovedContents(tabs, IndexOf(tabs, id), later, group); }
  }

  lemma MovedContents(tabs: seq<Id>, k: nat, later: bool, group: set<Id>)
    requires Distinct(tabs) && k < |tabs|
    ensures Distinct(Moved(tabs, k, later, group)) && forall x :: x in Moved(tabs, k, later, group) <==> x in tabs
  {
    var r, n := Moved(tabs, k, later, group), Neighbor(tabs, Beside(k, later), later, group);
    if n.Some? {
      assert r[k] == tabs[n.value] && r[n.value] == tabs[k] && forall i :: 0 <= i < |tabs| && i != k && i != n.value ==> r[i] == tabs[i];
    }
  }

  lemma {:induction false} WithoutIs(tabs: seq<Id>, k: nat)
    requires k < |tabs| && forall i :: 0 <= i < k ==> tabs[i] != tabs[k]
    ensures Without(tabs, tabs[k]) == tabs[..k] + tabs[k + 1..]
    decreases k
  {
    if k == 0 {
      assert tabs[..0] + tabs[1..] == tabs[1..];
    } else {
      WithoutIs(tabs[1..], k - 1);
      assert tabs[1..][k - 1] == tabs[k] && tabs[1..][..k - 1] == tabs[1..k] && tabs[1..][k..] == tabs[k + 1..];
      assert [tabs[0]] + (tabs[1..k] + tabs[k + 1..]) == tabs[..k] + tabs[k + 1..];
    }
  }

  /** The tab at `j` is the next one of the group behind or before `k`. */
  predicate NextTo(tabs: seq<Id>, k: nat, j: nat, later: bool, group: set<Id>) {
    && k < |tabs| && j < |tabs| && tabs[j] in group
    && (if later then k < j && forall i :: k < i < j ==> tabs[i] !in group else j < k && forall i :: j < i < k ==> tabs[i] !in group)
  }

  lemma {:induction false} NeighborIs(tabs: seq<Id>, k: nat, from: int, later: bool, group: set<Id>)
    requires k < |tabs| && if later then k < from && forall i :: k < i < from && i < |tabs| ==> tabs[i] !in group
                           else from < k && forall i :: from < i < k && 0 <= i ==> tabs[i] !in group
    ensures var n := Neighbor(tabs, from, later, group);
            && (n.Some? ==> NextTo(tabs, k, n.value, later, group))
            && (forall j: nat :: NextTo(tabs, k, j, later, group) ==> n == Some(j))
    decreases if later then |tabs| - from else from + 1
  {
    if 0 <= from < |tabs| && tabs[from] !in group {
      NeighborIs(tabs, k, Beside(from, later), later, group);
    }
  }

  /**
    What a mutation does to the order of the tabs: a new tab comes last, an open one stays where
    it is; a closed one leaves a gap that is closed up; a moved one changes places with the next
    tab on its target in the direction asked for, whatever stands between them, and stays if
    there is none.
    */
  lemma MutatedOrder(tabs: seq<Id>, id: Id, later: bool, group: set<Id>)
    requires Distinct(tabs)
    ensures Mutated(tabs, Open(id)) == if id in tabs then tabs else tabs + [id]
    ensures id !in tabs ==> Mutated(tabs, Close(id)) == tabs && Mutated(tabs, Move(id, later, group)) == tabs
    ensures forall k :: 0 <= k < |tabs| && tabs[k] == id ==> Mutated(tabs, Close(id)) == tabs[..k] + tabs[k + 1..]
    ensures forall k: nat, j: nat :: k < |tabs| && tabs[k] == id && NextTo(tabs, k, j, later, group) ==>
              Mutated(tabs, Move(id, later, group)) == tabs[k := tabs[j]][j := id]
    ensures (forall k: nat, j: nat :: NextTo(tabs, k, j, later, group) ==> tabs[k] != id) ==> Mutated(tabs, Move(id, later, group)) == tabs
  {
    if id in tabs {
      var k := IndexOf(tabs, id);
      WithoutIs(tabs, k);
      NeighborIs(tabs, k, Beside(k, later), later, group);
    } else {
      WithoutNothing(tabs, id);
    }
  }

  lemma {:induction false} WithoutNothing(tabs: seq<Id>, id: Id)
    requires id !in tabs
    ensures Without(tabs, id) == tabs
  {
    if tabs != [] {
      WithoutNothing(tabs[1..], id);
    }
  }

  /** Exactly the tabs have terminals. */
  ghost predicate Covers(tabs: seq<Id>, terms: map<Id, Term>) {
    forall id :: id in tabs <==> id in terms
  }
}
