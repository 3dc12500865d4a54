/** Runs that show the handoff's open windows, from a daemon with one tab. */
module HandoffWitnesses {
  import opened Wrappers
  import opened HandoffTerminal
  import opened HandoffProtocol
  import opened HandoffSafety
  import opened HandoffGuarantees

  const FINE := BeginFaults(true, true, true, true)
  const HELD := Term(Quiesced, false, false, true, false, false)

  function OneTab(t: Id): (w: World) {
    World(Idle, false, false, [t], [], [], [t], map[t := OPENED], 0, 0, NO_SUCCESSOR, [], [], [t], [])
  }

  lemma OneTabInitial(t: Id)
    ensures Initial(OneTab(t))
  {
    assert OneTab(t).terms == map id | id in [t] :: OPENED;
  }

  lemma Extend(w: World, acts: seq<Action>, a: Action)
    requires Possible(w, acts) && Enabled(Final(w, acts), a)
    ensures Possible(w, acts + [a]) && Final(w, acts + [a]) == Step(Final(w, acts), a)
  {
    assert (acts + [a])[..|acts|] == acts;
  }

  /** The update with the tab quiesced and a successor about to be started. */
  function Quieted(t: Id): (w: World) {
    OneTab(t).(phase := Spawn, terms := map[t := HELD], count := 1)
  }

  lemma ReachQuiet(t: Id) returns (acts: seq<Action>)
    ensures Possible(OneTab(t), acts) && Final(OneTab(t), acts) == Quieted(t)
  {
    var w := OneTab(t);
    acts := [];
    Extend(w, acts, DoBegin);
    acts := acts + [DoBegin];
    assert Final(w, acts) == w.(phase := Quiesce);
    Extend(w, acts, DoQuiesce(FINE));
    acts := acts + [DoQuiesce(FINE)];
    assert Final(w, acts).terms == map[t := HELD];
  }

  /** The manifest has been taken. */
  function Told(t: Id): (w: World) {
    Quieted(t).(phase := SendFds, succ := NO_SUCCESSOR.(phase := AwaitFds, tabs := [t]))
  }

  lemma ReachGreeted(t: Id) returns (acts: seq<Action>)
    ensures Possible(OneTab(t), acts)
    ensures Final(OneTab(t), acts) == Quieted(t).(phase := AwaitHello, succ := NO_SUCCESSOR.(phase := AwaitManifest), toPred := [Hello])
  {
    var w := OneTab(t);
    acts := ReachQuiet(t);
    Extend(w, acts, DoSpawn(true));
    acts := acts + [DoSpawn(true)];
    Extend(w, acts, DoTell);
    acts := acts + [DoTell];
  }

  lemma ReachTold(t: Id) returns (acts: seq<Action>)
    ensures Possible(OneTab(t), acts) && Final(OneTab(t), acts) == Told(t)
  {
    var w := OneTab(t);
    acts := ReachGreeted(t);
    Extend(w, acts, DoRead(true));
    acts := acts + [DoRead(true)];
    Extend(w, acts, DoManifest(true));
    acts := acts + [DoManifest(true)];
    assert Final(w, acts) == Quieted(t).(phase := SendFds, succ := NO_SUCCESSOR.(phase := AwaitManifest), toSucc := [Manifest([t])]);
    Extend(w, acts, DoTake);
    acts := acts + [DoTake];
  }

  /** The successor has everything and waits for the commit. */
  function Committing(t: Id): (w: World) {
    Quieted(t).(phase := AwaitCommitted, prepared := true, toSucc := [Commit],
              succ := NO_SUCCESSOR.(phase := AwaitCommit, tabs := [t], fds := {t}, terms := map[t := ADOPTED]))
  }

  lemma ReachFds(t: Id) returns (acts: seq<Action>)
    ensures Possible(OneTab(t), acts) && Final(OneTab(t), acts) == Told(t).(phase := AwaitReady, toSucc := [Fds([t])])
  {
    var w := OneTab(t);
    acts := ReachTold(t);
    Extend(w, acts, DoFds(1));
    acts := acts + [DoFds(1)];
    assert [t][..1] == [t];
  }

  lemma ReachAdopting(t: Id) returns (acts: seq<Action>)
    ensures Possible(OneTab(t), acts)
    ensures Final(OneTab(t), acts) == Told(t).(phase := AwaitReady, succ := NO_SUCCESSOR.(phase := Adopting, tabs := [t], fds := {t}))
  {
    var w := OneTab(t);
    acts := ReachFds(t);
    Extend(w, acts, DoTake);
    acts := acts + [DoTake];
    assert {} + (set id | id in [t]) == {t};
  }

  lemma ReachAdopted(t: Id) returns (acts: seq<Action>)
    ensures Possible(OneTab(t), acts)
    ensures Final(OneTab(t), acts) == Quieted(t).(phase := AwaitReady,
              succ := NO_SUCCESSOR.(phase := Adopted, tabs := [t], fds := {t}, terms := map[t := ADOPTED]))
  {
    var w := OneTab(t);
    acts := ReachAdopting(t);
    Extend(w, acts, DoAdopt);
    acts := acts + [DoAdopt];
    assert (map id | id in [t] :: ADOPTED) == map[t := ADOPTED];
  }

  lemma ReachPrepare(t: Id) returns (acts: seq<Action>)
    ensures Possible(OneTab(t), acts)
    ensures Final(OneTab(t), acts) == Committing(t).(phase := Prepare, prepared := false, toSucc := [])
  {
    var w := OneTab(t);
    acts := ReachAdopted(t);
    Extend(w, acts, DoTell);
    acts := acts + [DoTell];
    assert Final(w, acts).toPred == [Ready];
    Extend(w, acts, DoRead(true));
    acts := acts + [DoRead(true)];
  }

  lemma ReachReady(t: Id) returns (acts: seq<Action>)
    ensures Possible(OneTab(t), acts) && Final(OneTab(t), acts) == Committing(t)
  {
    var w := OneTab(t);
    acts := ReachPrepare(t);
    Extend(w, acts, DoPrepare(true));
    acts := acts + [DoPrepare(true)];
    Extend(w, acts, DoCommit(true, true));
    acts := acts + [DoCommit(true, true)];
  }

  /** The successor serves, and nobody has read `committed`. */
  function ServingNow(t: Id): (w: World) {
    Quieted(t).(phase := AwaitCommitted, prepared := true,
              succ := Successor(Serving, [t], {t}, map[t := Activated(ADOPTED)], 1, Some([t]), []))
  }

  lemma ReachActivated(t: Id) returns (acts: seq<Action>)
    ensures Possible(OneTab(t), acts)
    ensures Final(OneTab(t), acts) == ServingNow(t).(succ := ServingNow(t).succ.(phase := Activating, saved := None))
  {
    var w := OneTab(t);
    acts := ReachReady(t);
    Extend(w, acts, DoTake);
    acts := acts + [DoTake];
    Extend(w, acts, DoActivate);
    acts := acts + [DoActivate];
  }

  lemma ReachServing(t: Id) returns (acts: seq<Action>)
    ensures Possible(OneTab(t), acts) && Final(OneTab(t), acts) == ServingNow(t)
  {
    var w := OneTab(t);
    acts := ReachActivated(t);
    Extend(w, acts, DoActivate);
    acts := acts + [DoActivate];
    Extend(w, acts, DoPersist);
    acts := acts + [DoPersist];
    Extend(w, acts, DoStart);
    acts := acts + [DoStart];
  }

  lemma ReachKilled(t: Id, id: Id) returns (acts: seq<Action>)
    requires id != t
    ensures Possible(OneTab(t), acts)
    ensures Final(OneTab(t), acts) == Quieted(t).(phase := Resuming, prepared := true,
              succ := NO_SUCCESSOR.(phase := Dead), session := [t, id], stale := [Open(id)])
  {
    var w := OneTab(t);
    acts := ReachServing(t);
    Extend(w, acts, DoSuccessorMutate(Open(id)));
    acts := acts + [DoSuccessorMutate(Open(id))];
    assert [t] + [id] == [t, id] && [] + [Open(id)] == [Open(id)];
    Extend(w, acts, DoRead(false));
    acts := acts + [DoRead(false)];
    Extend(w, acts, DoKill);
    acts := acts + [DoKill];
  }

  /**
    A tab opened with a serving successor is lost when `committed` is not read: after the
    rollback session.json has it, and the daemon that goes on does not.
    */
  lemma ServedThenLost(t: Id, id: Id) returns (acts: seq<Action>)
    requires id != t
    ensures Initial(OneTab(t)) && Possible(OneTab(t), acts)
    ensures var end := Final(OneTab(t), acts);
            end.phase == Idle && !end.replaced && id in end.session && id !in end.tabs
  {
    var w := OneTab(t);
    OneTabInitial(t);
    acts := ReachKilled(t, id);
    Extend(w, acts, DoResume(true));
    acts := acts + [DoResume(true)];
    Extend(w, acts, DoRestore(true));
    acts := acts + [DoRestore(true)];
    Extend(w, acts, DoRestore(true));
    acts := acts + [DoRestore(true)];
  }

  /** A failed update killed its successor. */
  lemma ReachRestoring(t: Id) returns (acts: seq<Action>)
    ensures Possible(OneTab(t), acts)
    ensures Final(OneTab(t), acts) == Quieted(t).(phase := Restoring, succ := NO_SUCCESSOR.(phase := Dead))
  {
    var w := OneTab(t);
    acts := ReachQuiet(t);
    Extend(w, acts, DoSpawn(false));
    acts := acts + [DoSpawn(false)];
    Extend(w, acts, DoKill);
    acts := acts + [DoKill];
  }

  lemma ReachUnread(t: Id) returns (acts: seq<Action>)
    ensures Possible(OneTab(t), acts)
    ensures Final(OneTab(t), acts) == Quieted(t).(phase := Idle, succ := NO_SUCCESSOR.(phase := Dead),
              terms := map[t := RolledBack(HELD, false)], count := 0, next := 1)
  {
    var w := OneTab(t);
    acts := ReachRestoring(t);
    Extend(w, acts, DoRestore(false));
    acts := acts + [DoRestore(false)];
    assert Final(w, acts).terms == map[t := RolledBack(HELD, false)];
    Extend(w, acts, DoRestore(false));
    acts := acts + [DoRestore(false)];
  }

  /** An update that fails, a renderer that does not start again, and the next update never ends. */
  lemma SecondUpdateHangs(t: Id) returns (acts: seq<Action>)
    ensures Initial(OneTab(t)) && Possible(OneTab(t), acts) && Final(OneTab(t), acts).phase == Stuck
  {
    var w := OneTab(t);
    OneTabInitial(t);
    acts := ReachUnread(t);
    Extend(w, acts, DoBegin);
    acts := acts + [DoBegin];
    Extend(w, acts, DoQuiesce(FINE));
    acts := acts + [DoQuiesce(FINE)];
  }

  // ----- an update that succeeds -----

  function HandedOverNow(t: Id): (w: World) {
    ServingNow(t).(phase := Releasing, replaced := true, succ := ServingNow(t).succ.(phase := Owner))
  }

  lemma ReachHandedOver(t: Id) returns (acts: seq<Action>)
    ensures Possible(OneTab(t), acts) && Final(OneTab(t), acts) == HandedOverNow(t)
  {
    var w := OneTab(t);
    acts := ReachServing(t);
    Extend(w, acts, DoTell);
    acts := acts + [DoTell];
    assert Final(w, acts).toPred == [Committed];
    Extend(w, acts, DoRead(true));
    acts := acts + [DoRead(true)];
    assert [Committed][1..] == [];
  }

  lemma ReachGone(t: Id) returns (acts: seq<Action>)
    ensures Possible(OneTab(t), acts)
    ensures Final(OneTab(t), acts) == HandedOverNow(t).(phase := Gone, next := 1, terms := map[t := ReleasedTerm(HELD)])
  {
    var w := OneTab(t);
    acts := ReachHandedOver(t);
    Extend(w, acts, DoRelease);
    acts := acts + [DoRelease];
    assert Final(w, acts).terms == map[t := ReleasedTerm(HELD)];
    Extend(w, acts, DoRelease);
    acts := acts + [DoRelease];
  }

  /** An update that succeeds: the predecessor is gone and refuses what it is asked, the successor owns and reads the tab. */
  lemma UpdateSucceeds(t: Id, id: Id) returns (acts: seq<Action>)
    ensures Initial(OneTab(t)) && Possible(OneTab(t), acts)
    ensures var end := Final(OneTab(t), acts);
            && end.phase == Gone && end.succ.phase == Owner && SuccessorReads(end, t) && !PredecessorReads(end, t)
            && end.refused == [Open(id)] && end.tabs == [t]
  {
    var w := OneTab(t);
    OneTabInitial(t);
    acts := ReachGone(t);
    Extend(w, acts, DoMutate(Open(id)));
    acts := acts + [DoMutate(Open(id))];
  }

  /** A daemon serves what it is asked, and can die at once. */
  lemma ServesThenDies(t: Id, id: Id) returns (acts: seq<Action>)
    requires id != t
    ensures Initial(OneTab(t)) && Possible(OneTab(t), acts)
    ensures var end := Final(OneTab(t), acts); end.phase == Crashed && end.tabs == [t, id] && end.session == [t, id]
  {
    var w := OneTab(t);
    OneTabInitial(t);
    acts := [];
    Extend(w, acts, DoMutate(Open(id)));
    acts := acts + [DoMutate(Open(id))];
    assert [t] + [id] == [t, id];
    Extend(w, acts, PredecessorDies);
    acts := acts + [PredecessorDies];
  }
}
