/** A renderer worker restarted in the middle of a run: initialisation and reordered delivery composed. */
module RendererRestart {
  import opened RendererEvents
  import opened RendererJournal
  import opened RendererCheckpoint
  import opened RendererRecovery
  import opened RendererWorker
  import opened RendererOrder

  lemma {:induction false} HistorySplits(before: seq<Op>, later: seq<Op>)
    ensures History(before + later) == History(before) + History(later)
    decreases |later|
  {
    if later == [] {
      assert before + later == before && History(before) + [] == History(before);
    } else {
      var front, op := later[..|later| - 1], later[|later| - 1];
      assert later == front + [op] && before + later == before + front + [op];
      HistorySplits(before, front);
      HistorySnoc(before + front, op);
      HistorySnoc(front, op);
      Associates(History(before), History(front), CommandOf(op));
    }
  }

  lemma HistorySnoc(ops: seq<Op>, op: Op)
    ensures History(ops + [op]) == History(ops) + CommandOf(op)
  {
    assert (ops + [op])[..|ops|] == ops;
  }

  lemma Associates(a: seq<Command>, b: seq<Command>, c: seq<Command>)
    ensures a + (b + c) == a + b + c
  {
  }

  /** The terminal a worker has after initialisation. */
  ghost function Initialized<S>(draw: (Terminal<S>, nat, Bytes) -> S, blank: S, p: Params<S>): (t: Terminal<S>) {
    if Usable(p) then Replay(draw, p.checkpoint.state, p.tail)
    else Replay(draw, Sized(blank, p.cols, p.rows, p.cellWidth, p.cellHeight), p.journal)
  }

  /** A checkpoint of this terminal taken at some watermark of the run, which decodes here. */
  ghost predicate Taken<S>(draw: (Terminal<S>, nat, Bytes) -> S, blank: S, ops: seq<Op>, c: Checkpoint<S>) {
    && c.Checkpoint? && c.valid && c.decodes && c.applied <= |History(ops)|
    && c.state == After(draw, Terminal(blank, 0, 0, 0, 0), History(ops), c.applied)
  }

  /** The journal still covers the checkpoint; or the checkpoint is not used, the journal is whole and no output preceded the first pixel size. */
  ghost predicate Recoverable<S>(draw: (Terminal<S>, nat, Bytes) -> S, blank: S, maxBytes: int, ops: seq<Op>, c: Checkpoint<S>) {
    var j := Run(Empty(maxBytes), ops);
    || (Taken(draw, blank, ops, c) && TailIsComplete(j, c.applied))
    || ((c.NoCheckpoint? || !c.valid || !c.decodes || !TailIsComplete(j, c.applied)) && !j.partial && ops != [] && ops[0].Size? && PixelsFirst(History(ops)))
  }

  lemma InitializedIsLive<S>(draw: (Terminal<S>, nat, Bytes) -> S, blank: S, maxBytes: int, ops: seq<Op>, c: Checkpoint<S>)
    requires Recoverable(draw, blank, maxBytes, ops, c)
    ensures Initialized(draw, blank, SupervisorParams(Run(Empty(maxBytes), ops), c))
         == After(draw, Terminal(blank, 0, 0, 0, 0), History(ops), |History(ops)|)
  {
    if Taken(draw, blank, ops, c) && TailIsComplete(Run(Empty(maxBytes), ops), c.applied) {
      RestoredIsLive(draw, Terminal(blank, 0, 0, 0, 0), maxBytes, ops, c);
    } else {
      RawReplayIsLive(draw, blank, maxBytes, ops);
    }
  }

  /**
    A worker restarted at any point of a run from which it can recover, and then sent the later
    events in any order and any number of times, holds the live terminal once all have arrived.
    */
  lemma RestartedConverges<S>(draw: (Terminal<S>, nat, Bytes) -> S, blank: S, maxBytes: int,
                              before: seq<Op>, later: seq<Op>, c: Checkpoint<S>, ids: seq<nat>)
    requires Recoverable(draw, blank, maxBytes, before, c)
    requires (forall op :: op in before + later ==> ValidOp(op)) && |History(before + later)| < INPUT_EVENT_BIT
    requires Arrivals(Sent(maxBytes, before + later), ids)
    requires Delivered(|History(before)|, Sent(maxBytes, before + later), ids).ok
    requires forall id :: |History(before)| < id <= |History(before + later)| ==> id in IdsOf(ids)
    ensures var hist := History(before + later);
            var r := Delivered(|History(before)|, Sent(maxBytes, before + later), ids);
            var start := Initialized(draw, blank, SupervisorParams(Run(Empty(maxBytes), before), c));
            && r.queue == Queue(|hist|, map[])
            && Replay(draw, start, r.run) == After(draw, Terminal(blank, 0, 0, 0, 0), hist, |hist|)
  {
    InitializedIsLive(draw, blank, maxBytes, before, c);
    HistorySplits(before, later);
    PrefixStable(draw, Terminal(blank, 0, 0, 0, 0), History(before), History(later), |History(before)|);
    WorkerConverges(draw, Terminal(blank, 0, 0, 0, 0), maxBytes, before + later, |History(before)|, ids);
  }
}
