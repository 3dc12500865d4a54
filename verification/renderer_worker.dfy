/**
  A worker's initialisation: restore a checkpoint and replay its tail, or replay
  the raw journal on a fresh terminal.
  */
module RendererWorker {
  import opened RendererEvents
  import opened RendererJournal
  import opened RendererCheckpoint

  /** `decodes` is the native decoder's answer; `valid` is digest, build and policy. */
  datatype Checkpoint<S> = NoCheckpoint | Checkpoint(applied: nat, state: Terminal<S>, valid: bool, decodes: bool)

  datatype Params<S> = Params(cols: int, rows: int, cellWidth: int, cellHeight: int,
                              journal: seq<Event>, watermark: nat,
                              checkpoint: Checkpoint<S>, tail: seq<Event>)

  /** A factory-fresh terminal after the two resizes every init performs. */
  function Sized<S>(blank: S, cols: int, rows: int, w: int, h: int): (t: Terminal<S>) {
    if w > 0 then Terminal(blank, cols, rows, w, h) else Terminal(blank, cols, rows, 0, 0)
  }

  ghost predicate Usable<S>(p: Params<S>) {
    && p.checkpoint.Checkpoint? && p.checkpoint.valid && p.checkpoint.decodes
    && Complete(Snapshot(p.tail, false, 0, 0, 0, p.watermark, 0, 0), p.checkpoint.applied)
  }

  class Worker<S> {
    const draw: (Terminal<S>, nat, Bytes) -> S
    const blank: S
    var terminal: Terminal<S>
    var applied: nat
    var replaying: bool

    constructor (draw: (Terminal<S>, nat, Bytes) -> S, blank: S)
      ensures this.draw == draw && this.blank == blank
      ensures terminal == Sized(blank, 0, 0, 0, 0) && applied == 0 && !replaying
    {
      this.draw, this.blank := draw, blank;
      terminal, applied, replaying := Terminal(blank, 0, 0, 0, 0), 0, false;
    }

    method ApplyJournalEvent(event: Event)
      modifies this`terminal
      ensures terminal == Apply(draw, old(terminal), event)
    {
      match event.kind
      case Output =>
        terminal := terminal.(screen := draw(terminal, event.id, event.data));
      case Resize =>
        if event.cellWidth > 0 {
          terminal := terminal.(cols := event.cols, rows := event.rows,
                                cellWidth := event.cellWidth, cellHeight := event.cellHeight);
        } else {
          terminal := terminal.(cols := event.cols, rows := event.rows);
        }
      case Unknown =>
    }

    method ReplayAll(events: seq<Event>)
      modifies this`terminal
      ensures terminal == Replay(draw, old(terminal), events)
    {
      for i := 0 to |events|
        invariant terminal == Replay(draw, old(terminal), events[..i])
      {
        ApplyJournalEvent(events[i]);
        assert events[..i + 1][..i] == events[..i];
      }
      assert events[..|events|] == events;
    }

    method Init(p: Params<S>) returns (restored: bool)
      modifies this
      ensures restored <==> Usable(p)
      ensures terminal == if restored then Replay(draw, p.checkpoint.state, p.tail)
                          else Replay(draw, Sized(blank, p.cols, p.rows, p.cellWidth, p.cellHeight), p.journal)
      ensures applied == p.watermark && !replaying
    {
      replaying := true;
      terminal := Sized(blank, p.cols, p.rows, p.cellWidth, p.cellHeight);
      restored := false;
      if p.checkpoint.Checkpoint? && p.checkpoint.valid {
        var _, complete := TailAfter(Snapshot(p.tail, false, 0, 0, 0, p.watermark, 0, 0), p.checkpoint.applied);
        if complete && p.checkpoint.decodes {
          terminal := p.checkpoint.state;
          restored := true;
          ReplayAll(p.tail);
        }
      }
      if !restored {
        ReplayAll(p.journal);
      }
      applied := p.watermark;
      replaying := false;
    }
  }

  /** What the supervisor sends: the whole journal, and the tail only when it is complete. */
  function SupervisorParams<S>(j: State, checkpoint: Checkpoint<S>): (p: Params<S>) {
    if checkpoint.Checkpoint? && checkpoint.valid && TailIsComplete(j, checkpoint.applied)
    then Params(j.cols, j.rows, j.cellWidth, j.cellHeight, j.events, j.nextID, checkpoint,
                Newer(j.events, checkpoint.applied))
    else Params(j.cols, j.rows, j.cellWidth, j.cellHeight, j.events, j.nextID, NoCheckpoint, [])
  }

  predicate TailIsComplete(j: State, k: nat) {
    k == j.nextID || (k < j.nextID && j.events != [] && j.events[0].First() <= k + 1)
  }

  lemma NewerIdempotent(events: seq<Event>, k: nat)
    ensures Newer(Newer(events, k), k) == Newer(events, k)
  {
  }

  /**
    A renderer restored from a checkpoint taken at any watermark of any run ends as
    the live terminal: same screen, geometry and pixel size.
    */
  lemma RestoredIsLive<S>(draw: (Terminal<S>, nat, Bytes) -> S, t0: Terminal<S>,
                          maxBytes: int, ops: seq<Op>, c: Checkpoint<S>)
    requires c.Checkpoint? && c.valid && c.decodes
    requires c.applied <= |History(ops)|
    requires c.state == After(draw, t0, History(ops), c.applied)
    ensures var j := Run(Empty(maxBytes), ops);
            var p := SupervisorParams(j, c);
            && (Usable(p) <==> TailIsComplete(j, c.applied))
            && (Usable(p) ==> Replay(draw, p.checkpoint.state, p.tail) == After(draw, t0, History(ops), |History(ops)|))
  {
    var j := Run(Empty(maxBytes), ops);
    TailCompleteIff(maxBytes, ops, c.applied);
    NewerIdempotent(j.events, c.applied);
    if TailIsComplete(j, c.applied) {
      TailCatchesUp(draw, t0, maxBytes, ops, c.applied);
    }
  }

  // ----- raw replay -----

  /** Raw replay of a journal that still reaches back to command 1 follows the whole history. */
  lemma RawReplayFollows<S>(draw: (Terminal<S>, nat, Bytes) -> S, start: Terminal<S>,
                            maxBytes: int, ops: seq<Op>)
    requires !Run(Empty(maxBytes), ops).partial
    ensures Replay(draw, start, Run(Empty(maxBytes), ops).events) == After(draw, start, History(ops), |History(ops)|)
  {
    RunRepresents(maxBytes, ops);
    var j, hist := Run(Empty(maxBytes), ops), History(ops);
    if j.events != [] {
      forall i | 0 <= i < |j.events| ensures j.events[i].First() <= j.events[i].id {
        assert Matches(hist, j.events[i]);
      }
      SpansChain(j.events, 0);
      ChainReplays(draw, start, hist, 0, j.events);
    }
  }

  /** No output was drawn before the first pixel size, unless there never was one. */
  ghost predicate PixelsFirst(hist: seq<Command>) {
    StickyCell(hist, |hist|) == (0, 0) ||
    forall i :: 0 <= i < |hist| && hist[i].Emit? ==> StickyCell(hist, i) != (0, 0)
  }

  lemma {:induction false} StickyMonotone(hist: seq<Command>, i: nat, k: nat)
    requires i <= k <= |hist|
    ensures StickyCell(hist, k) == (0, 0) ==> StickyCell(hist, i) == (0, 0)
    decreases k
  {
    if i < k {
      StickyMonotone(hist, i, k - 1);
    }
  }

  lemma {:induction false} RawAgrees<S>(draw: (Terminal<S>, nat, Bytes) -> S, blank: S, live: Terminal<S>,
                                        hist: seq<Command>, cols: int, rows: int, k: nat)
    requires k <= |hist| && hist != [] && hist[0].Fit?
    requires live.screen == blank && live.cellWidth == 0 && live.cellHeight == 0
    requires PixelsFirst(hist)
    ensures var cell := StickyCell(hist, |hist|);
            var a := After(draw, Sized(blank, cols, rows, cell.0, cell.1), hist, k);
            var b := After(draw, live, hist, k);
            && a.screen == b.screen
            && (k > 0 ==> a.cols == b.cols && a.rows == b.rows)
            && (StickyCell(hist, k) != (0, 0) || cell == (0, 0) ==> a.cellWidth == b.cellWidth && a.cellHeight == b.cellHeight)
    decreases k
  {
    if k > 0 {
      RawAgrees(draw, blank, live, hist, cols, rows, k - 1);
      StickyMonotone(hist, k - 1, |hist|);
    }
  }

  /** The observer that tells two renderers apart: remember the pixel size at every draw. */
  function Observe(t: Terminal<seq<(int, int)>>, id: nat, data: Bytes): (s: seq<(int, int)>) {
    t.screen + [(t.cellWidth, t.cellHeight)]
  }

  /** Drawings only accumulate. */
  lemma {:induction false} ObservedPrefix(t0: Terminal<seq<(int, int)>>, hist: seq<Command>, i: nat, k: nat)
    requires i <= k <= |hist|
    ensures After(Observe, t0, hist, i).screen <= After(Observe, t0, hist, k).screen
    decreases k
  {
    if i < k {
      ObservedPrefix(t0, hist, i, k - 1);
    }
  }

  lemma {:induction false} ObservedCount(a: Terminal<seq<(int, int)>>, b: Terminal<seq<(int, int)>>,
                                         hist: seq<Command>, k: nat)
    requires k <= |hist| && |a.screen| == |b.screen|
    ensures |After(Observe, a, hist, k).screen| == |After(Observe, b, hist, k).screen|
  {
    if k > 0 {
      ObservedCount(a, b, hist, k - 1);
    }
  }

  /** Terminals whose drawings differ at some place differ there for ever. */
  lemma DrawnApart(a: Terminal<seq<(int, int)>>, b: Terminal<seq<(int, int)>>, hist: seq<Command>, i: nat, at: nat)
    requires i <= |hist| && at < |After(Observe, a, hist, i).screen| && at < |After(Observe, b, hist, i).screen|
    requires After(Observe, a, hist, i).screen[at] != After(Observe, b, hist, i).screen[at]
    ensures After(Observe, a, hist, |hist|) != After(Observe, b, hist, |hist|)
  {
    ObservedPrefix(a, hist, i, |hist|);
    ObservedPrefix(b, hist, i, |hist|);
  }

  /** An output is drawn with the pixel size in force. */
  lemma DrawnWith(t: Terminal<seq<(int, int)>>, hist: seq<Command>, i: nat)
    requires i < |hist| && hist[i].Emit?
    ensures var before := After(Observe, t, hist, i);
            After(Observe, t, hist, i + 1).screen == before.screen + [(before.cellWidth, before.cellHeight)]
  {
  }

  /** An output drawn with different pixel sizes tells the two terminals apart. */
  lemma DrawnDifferently(a: Terminal<seq<(int, int)>>, b: Terminal<seq<(int, int)>>, hist: seq<Command>, i: nat)
    requires i < |hist| && hist[i].Emit? && |a.screen| == |b.screen|
    requires var x, y := After(Observe, a, hist, i), After(Observe, b, hist, i); (x.cellWidth, x.cellHeight) != (y.cellWidth, y.cellHeight)
    ensures After(Observe, a, hist, |hist|) != After(Observe, b, hist, |hist|)
  {
    ObservedCount(a, b, hist, i);
    DrawnWith(a, hist, i);
    DrawnWith(b, hist, i);
    DrawnApart(a, b, hist, i + 1, |After(Observe, b, hist, i).screen|);
  }

  lemma RawDiffers(hist: seq<Command>, cols: int, rows: int, live: Terminal<seq<(int, int)>>)
    requires !PixelsFirst(hist)
    requires live.screen == [] && live.cellWidth == 0 && live.cellHeight == 0
    ensures var cell := StickyCell(hist, |hist|);
            After(Observe, Sized([], cols, rows, cell.0, cell.1), hist, |hist|) != After(Observe, live, hist, |hist|)
  {
    var cell := StickyCell(hist, |hist|);
    var raw := Sized<seq<(int, int)>>([], cols, rows, cell.0, cell.1);
    var i :| 0 <= i < |hist| && hist[i].Emit? && StickyCell(hist, i) == (0, 0);
    CellOfAfter(Observe, raw, hist, i);
    CellOfAfter(Observe, live, hist, i);
    DrawnDifferently(raw, live, hist, i);
  }

  /** For every emulator at all: raw replay of a complete journal is the live terminal if no output preceded the first pixel size. */
  lemma RawReplayIsLive<S>(draw: (Terminal<S>, nat, Bytes) -> S, blank: S, maxBytes: int, ops: seq<Op>)
    requires !Run(Empty(maxBytes), ops).partial && ops != [] && ops[0].Size? && PixelsFirst(History(ops))
    ensures var j, hist := Run(Empty(maxBytes), ops), History(ops);
            Replay(draw, Sized(blank, j.cols, j.rows, j.cellWidth, j.cellHeight), j.events)
            == After(draw, Terminal(blank, 0, 0, 0, 0), hist, |hist|)
  {
    var j, hist := Run(Empty(maxBytes), ops), History(ops);
    RunRepresents(maxBytes, ops);
    HistoryStarts(ops);
    RawReplayFollows(draw, Sized(blank, j.cols, j.rows, j.cellWidth, j.cellHeight), maxBytes, ops);
    RawAgrees(draw, blank, Terminal(blank, 0, 0, 0, 0), hist, j.cols, j.rows, |hist|);
  }

  /**
    Init sizes the fresh terminal with the journal's newest pixel size before the
    first event. So raw replay of a complete journal reproduces the live terminal
    for every emulator exactly when no output preceded the first pixel size (or
    none was ever given); otherwise there is an emulator it gets wrong, which only
    has to remember the pixel size at every draw.
    */
  lemma RawReplayIsLiveIff(maxBytes: int, ops: seq<Op>)
    requires !Run(Empty(maxBytes), ops).partial
    requires ops != [] && ops[0].Size?
    ensures var j, hist := Run(Empty(maxBytes), ops), History(ops);
            PixelsFirst(hist) <==>
            (forall draw: (Terminal<seq<(int, int)>>, nat, Bytes) -> seq<(int, int)> {:trigger Replay(draw, Sized([], j.cols, j.rows, j.cellWidth, j.cellHeight), j.events)} ::
               Replay(draw, Sized([], j.cols, j.rows, j.cellWidth, j.cellHeight), j.events)
               == After(draw, Terminal([], 0, 0, 0, 0), hist, |hist|))
  {
    var j, hist := Run(Empty(maxBytes), ops), History(ops);
    RunRepresents(maxBytes, ops);
    HistoryStarts(ops);
    var start := Sized<seq<(int, int)>>([], j.cols, j.rows, j.cellWidth, j.cellHeight);
    var live: Terminal<seq<(int, int)>> := Terminal([], 0, 0, 0, 0);
    if PixelsFirst(hist) {
      forall draw: (Terminal<seq<(int, int)>>, nat, Bytes) -> seq<(int, int)>
        ensures Replay(draw, start, j.events) == After(draw, live, hist, |hist|)
      {
        RawReplayIsLive(draw, [], maxBytes, ops);
      }
    } else {
      RawReplayFollows(Observe, start, maxBytes, ops);
      RawDiffers(hist, j.cols, j.rows, live);
      assert Replay(Observe, start, j.events) != After(Observe, live, hist, |hist|);
    }
  }
}
