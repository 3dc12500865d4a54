/**
  The recovery bundle a live handoff carries: its validator, the journal rebuilt
  from it, and the two facts the successor depends on.
  */
module RendererRecovery {
  import opened RendererEvents
  import opened RendererJournal

  const MAX_RECOVERY_EVENTS: nat := 65536

  /** ID of the event before index `i`, zero before the first. */
  function Previous(events: seq<Event>, i: nat): (id: nat)
    requires i <= |events|
  {
    if i == 0 then 0 else events[i - 1].id
  }

  ghost predicate WellFormedAt(s: Snapshot, i: nat)
    requires i < |s.events|
  {
    var e := s.events[i];
    && Previous(s.events, i) < e.id <= s.lastID
    && e.First() <= e.id
    && (e.kind == Output || e.kind == Resize)
    && (e.kind == Output ==> e.First() == e.id)
    && (i > 0 || !s.partial ==> e.First() <= Previous(s.events, i) + 1)
    && (e.kind == Resize ==> ValidGeometry(e.cols, e.rows) && ValidPixels(e.cellWidth, e.cellHeight))
  }

  ghost predicate Acceptable(s: Snapshot) {
    && ValidPixels(s.cellWidth, s.cellHeight)
    && s.lastID < INPUT_EVENT_BIT
    && ValidGeometry(s.cols, s.rows)
    && |s.events| <= MAX_RECOVERY_EVENTS
    && (forall i :: 0 <= i < |s.events| ==> WellFormedAt(s, i))
    && s.bytes == SumCost(s.events) <= DEFAULT_JOURNAL_BYTES
    && (if s.events == [] then s.lastID == 0 || s.partial else s.events[|s.events| - 1].id == s.lastID)
  }

  lemma {:induction false} SumCostSplit(xs: seq<Event>, ys: seq<Event>)
    ensures SumCost(xs + ys) == SumCost(xs) + SumCost(ys)
  {
    if xs == [] {
      assert xs + ys == ys;
    } else {
      assert (xs + ys)[1..] == xs[1..] + ys;
      SumCostSplit(xs[1..], ys);
    }
  }

  /** The source's single pass decides exactly `Acceptable`, on any snapshot. */
  method ValidateRecoveryJournal(s: Snapshot) returns (ok: bool)
    ensures ok <==> Acceptable(s)
  {
    if !ValidPixels(s.cellWidth, s.cellHeight) {
      return false;
    }
    if s.lastID >= INPUT_EVENT_BIT || !ValidGeometry(s.cols, s.rows) || s.bytes < 0 ||
       s.bytes > DEFAULT_JOURNAL_BYTES || |s.events| > MAX_RECOVERY_EVENTS {
      return false;
    }
    var bytes := 0;
    var previous := 0;
    var index := 0;
    while index < |s.events|
      invariant 0 <= index <= |s.events|
      invariant forall i :: 0 <= i < index ==> WellFormedAt(s, i)
      invariant previous == Previous(s.events, index)
      invariant bytes == SumCost(s.events[..index]) <= DEFAULT_JOURNAL_BYTES
    {
      var event := s.events[index];
      var first := event.First();
      if event.id == 0 || event.id > s.lastID || event.id <= previous || first > event.id ||
         (event.kind != Output && event.kind != Resize) || (event.kind == Output && first != event.id) {
        assert !WellFormedAt(s, index);
        return false;
      }
      if (index > 0 || !s.partial) && first > previous + 1 {
        assert !WellFormedAt(s, index);
        return false;
      }
      if event.kind == Resize &&
         (!ValidGeometry(event.cols, event.rows) || !ValidPixels(event.cellWidth, event.cellHeight)) {
        assert !WellFormedAt(s, index);
        return false;
      }
      assert s.events[..index + 1] == s.events[..index] + [event];
      SumCostSnoc(s.events[..index], event);
      assert s.events == s.events[..index + 1] + s.events[index + 1..];
      SumCostSplit(s.events[..index + 1], s.events[index + 1..]);
      bytes := bytes + event.Cost();
      if bytes > DEFAULT_JOURNAL_BYTES {
        return false;
      }
      previous := event.id;
      index := index + 1;
    }
    assert s.events[..index] == s.events;
    ok := !(bytes != s.bytes || (|s.events| > 0 && previous != s.lastID) ||
            (|s.events| == 0 && s.lastID != 0 && !s.partial));
  }

  // ----- every reachable journal is accepted -----

  predicate ValidOp(op: Op) {
    op.Size? ==> ValidGeometry(op.cols, op.rows) && ValidPixels(op.cellWidth, op.cellHeight)
  }

  ghost predicate ValidCommands(hist: seq<Command>) {
    forall i :: 0 <= i < |hist| && hist[i].Fit? ==>
                  ValidGeometry(hist[i].cols, hist[i].rows) && ValidPixels(hist[i].cellWidth, hist[i].cellHeight)
  }

  lemma {:induction false} HistoryValid(ops: seq<Op>)
    requires forall op :: op in ops ==> ValidOp(op)
    ensures ValidCommands(History(ops))
  {
    if ops != [] {
      assert ops[|ops| - 1] in ops;
      HistoryValid(ops[..|ops| - 1]);
    }
  }

  lemma {:induction false} StickyValid(hist: seq<Command>, k: nat)
    requires k <= |hist| && ValidCommands(hist)
    ensures ValidPixels(StickyCell(hist, k).0, StickyCell(hist, k).1)
  {
    if k > 0 {
      StickyValid(hist, k - 1);
    }
  }

  lemma {:induction false} GeometryValid(hist: seq<Command>, cols: int, rows: int)
    requires ValidCommands(hist) && hist != [] && hist[0].Fit?
    requires LastGeometry(hist, cols, rows)
    ensures ValidGeometry(cols, rows)
  {
    var n := |hist| - 1;
    if !hist[n].Fit? {
      GeometryValid(hist[..n], cols, rows);
    }
  }

  lemma RetainedWellFormed(j: State, hist: seq<Command>, i: nat)
    requires Represents(j, hist) && ValidCommands(hist) && i < |j.events|
    ensures WellFormedAt(Snap(j), i)
  {
    var e := j.events[i];
    assert Matches(hist, e);
    if i > 0 {
      assert j.events[(i - 1) + 1].First() == j.events[i - 1].id + 1;
    }
    if e.kind == Resize {
      StickyValid(hist, e.id);
    }
  }

  /** Whatever is accepted keeps the bounds of the format, in numbers. */
  lemma AcceptedBounds(s: Snapshot)
    requires Acceptable(s)
    ensures |s.events| <= 65536 && s.lastID < 0x8000_0000_0000_0000 && s.bytes <= 1048576
    ensures 1 <= s.cols <= 65535 && 1 <= s.rows <= 65535 && s.cols * s.rows <= 1048576
    ensures 0 <= s.cellWidth <= 4096 && 0 <= s.cellHeight <= 4096 && (s.cellWidth == 0 <==> s.cellHeight == 0)
  {
    GeometryIff(s.cols, s.rows);
    PixelsIff(s.cellWidth, s.cellHeight);
  }

  /**
    A journal built with the default budget, an initial resize and valid geometries
    is accepted exactly when it keeps the two bounds its own trimming does not
    enforce: the number of retained events and the ID space.
    */
  lemma ReachableAcceptedIff(maxBytes: int, ops: seq<Op>)
    requires maxBytes <= 0 || maxBytes == 1048576
    requires forall op :: op in ops ==> ValidOp(op)
    requires ops != [] && ops[0].Size?
    ensures var j := Run(Empty(maxBytes), ops);
            Acceptable(Snap(j)) <==> |j.events| <= 65536 && j.nextID < 0x8000_0000_0000_0000
  {
    RunRepresents(maxBytes, ops);
    HistoryValid(ops);
    HistoryStarts(ops);
    RepresentedAcceptedIff(Run(Empty(maxBytes), ops), History(ops));
  }

  lemma RepresentedAcceptedIff(j: State, hist: seq<Command>)
    requires Represents(j, hist) && j.maxBytes == DEFAULT_JOURNAL_BYTES
    requires ValidCommands(hist) && hist != [] && hist[0].Fit?
    ensures Acceptable(Snap(j)) <==> |j.events| <= MAX_RECOVERY_EVENTS && j.nextID < INPUT_EVENT_BIT
  {
    StickyValid(hist, |hist|);
    GeometryValid(hist, j.cols, j.rows);
    forall i | 0 <= i < |j.events| ensures WellFormedAt(Snap(j), i) {
      RetainedWellFormed(j, hist, i);
    }
  }

  // ----- the rebuilt journal -----

  function Rebuilt(s: Snapshot): (j: State) {
    State(DEFAULT_JOURNAL_BYTES, s.lastID, s.events, s.bytes, s.partial, s.cols, s.rows, s.cellWidth, s.cellHeight)
  }

  method JournalFromRecovery(s: Snapshot) returns (j: Journal)
    ensures fresh(j)
    ensures j.Value() == Rebuilt(s)
  {
    j := new Journal(DEFAULT_JOURNAL_BYTES);
    j.nextID, j.cols, j.rows, j.partial, j.bytes := s.lastID, s.cols, s.rows, s.partial, s.bytes;
    j.cellWidth, j.cellHeight := s.cellWidth, s.cellHeight;
    var events: seq<Event> := [];
    for index := 0 to |s.events|
      invariant events == s.events[..index]
    {
      events := events + [s.events[index]];
    }
    j.events := events;
  }

  lemma {:induction false} RunSplits(j: State, xs: seq<Op>, ys: seq<Op>)
    ensures Run(j, xs + ys) == Run(Run(j, xs), ys)
    ensures Issued(j, xs + ys) == Issued(j, xs) + Issued(Run(j, xs), ys)
    decreases |ys|
  {
    if ys == [] {
      assert xs + ys == xs;
    } else {
      var n := |ys| - 1;
      assert (xs + ys)[..|xs + ys| - 1] == xs + ys[..n];
      RunSplits(j, xs, ys[..n]);
    }
  }

  /**
    The successor cannot be told from the predecessor: whatever is appended or
    dropped later, the rebuilt journal issues the events and takes the snapshots
    the original would have.
    */
  lemma RebuiltContinues(maxBytes: int, ops: seq<Op>, later: seq<Op>)
    requires maxBytes <= 0 || maxBytes == DEFAULT_JOURNAL_BYTES
    ensures var rebuilt := Rebuilt(Snap(Run(Empty(maxBytes), ops)));
            && Snap(Run(rebuilt, later)) == Snap(Run(Empty(maxBytes), ops + later))
            && Issued(Empty(maxBytes), ops + later) == Issued(Empty(maxBytes), ops) + Issued(rebuilt, later)
  {
    RunRepresents(maxBytes, ops);
    RunSplits(Empty(maxBytes), ops, later);
  }
}
