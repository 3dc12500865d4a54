/**
  The vocabulary shared by the whole renderer journal family: journal events with
  their `FirstID..ID` span, the terminal they are applied to, and the uncoalesced
  command history a span stands for.

  The emulator is abstract. What output draws is a function `draw` of the complete
  terminal (screen, geometry and pixel size), the event ID and the bytes; every
  result about terminals is for all such functions.
  */
module RendererEvents {

  newtype byte = x: int | 0 <= x < 256
  type Bytes = seq<byte>

  const RESIZE_EVENT_BYTES: nat := 64
  const DEFAULT_JOURNAL_BYTES: nat := 0x10_0000
  const INPUT_EVENT_BIT: nat := 0x8000_0000_0000_0000

  /** The wire's type field: a worker may be sent something that is neither. */
  datatype Kind = Output | Resize | Unknown

  datatype Event = Event(id: nat, firstID: nat, kind: Kind, data: Bytes,
                         cols: int, rows: int, cellWidth: int, cellHeight: int)
  {
    /** First ID the event stands for: a zero `firstID` means the ID itself. */
    function First(): nat {
      if firstID == 0 then id else firstID
    }

    /** Retention cost: a resize carries no payload but is charged a nominal one. */
    function Cost(): nat {
      if kind == Resize then RESIZE_EVENT_BYTES else |data|
    }
  }

  predicate ValidGeometry(cols: int, rows: int) {
    cols > 0 && rows > 0 && cols <= 65535 && rows <= 65535 && cols <= 0x10_0000 / rows
  }

  predicate ValidPixels(width: int, height: int) {
    (width == 0 && height == 0) || (0 < width <= 4096 && 0 < height <= 4096)
  }

  /** A size is accepted if and only if neither side exceeds 65535 and it has at most 1048576 cells. */
  lemma GeometryIff(cols: int, rows: int)
    ensures ValidGeometry(cols, rows) <==> 1 <= cols <= 65535 && 1 <= rows <= 65535 && cols * rows <= 1048576
  {
    if rows > 0 {
      QuotientBound(cols, rows, 1048576);
    }
  }

  lemma QuotientBound(a: int, b: int, m: int)
    requires b > 0
    ensures a <= m / b <==> a * b <= m
  {
    var q := m / b;
    assert m == q * b + m % b;
    if a <= q {
      assert a * b <= q * b;
    } else {
      assert a * b >= (q + 1) * b;
    }
  }

  /** A pixel size is accepted if and only if it is absent or both sides are from 1 to 4096. */
  lemma PixelsIff(width: int, height: int)
    ensures ValidPixels(width, height) <==> (width == 0 <==> height == 0) && 0 <= width <= 4096 && 0 <= height <= 4096
  {
  }

  datatype Terminal<S> = Terminal(screen: S, cols: int, rows: int, cellWidth: int, cellHeight: int)

  /** The worker's `applyJournalEvent`. A zero cell width leaves the pixel size alone. */
  function Apply<S>(draw: (Terminal<S>, nat, Bytes) -> S, t: Terminal<S>, e: Event): (r: Terminal<S>) {
    match e.kind
    case Output => t.(screen := draw(t, e.id, e.data))
    case Resize =>
      if e.cellWidth > 0
      then t.(cols := e.cols, rows := e.rows, cellWidth := e.cellWidth, cellHeight := e.cellHeight)
      else t.(cols := e.cols, rows := e.rows)
    case Unknown => t
  }

  function Replay<S>(draw: (Terminal<S>, nat, Bytes) -> S, t: Terminal<S>, events: seq<Event>): (r: Terminal<S>) {
    if events == [] then t
    else Apply(draw, Replay(draw, t, events[..|events| - 1]), events[|events| - 1])
  }

  lemma {:induction false} ReplayConcat<S>(draw: (Terminal<S>, nat, Bytes) -> S, t: Terminal<S>,
                                           xs: seq<Event>, ys: seq<Event>)
    ensures Replay(draw, t, xs + ys) == Replay(draw, Replay(draw, t, xs), ys)
    decreases |ys|
  {
    if ys == [] {
      assert xs + ys == xs;
    } else {
      var n := |ys| - 1;
      assert (xs + ys)[..|xs + ys| - 1] == xs + ys[..n];
      ReplayConcat(draw, t, xs, ys[..n]);
    }
  }

  /** One call made on the journal; command number `i` of a history has ID `i + 1`. */
  datatype Command = Emit(data: Bytes) | Fit(cols: int, rows: int, cellWidth: int, cellHeight: int)

  /** What a command does to a terminal that sees every command, coalescing nothing. */
  function Perform<S>(draw: (Terminal<S>, nat, Bytes) -> S, t: Terminal<S>, id: nat, c: Command): (r: Terminal<S>) {
    match c
    case Emit(data) => t.(screen := draw(t, id, data))
    case Fit(cols, rows, w, h) =>
      if w > 0 && h > 0
      then t.(cols := cols, rows := rows, cellWidth := w, cellHeight := h)
      else t.(cols := cols, rows := rows)
  }

  /** The live terminal after the first `k` commands. */
  function After<S>(draw: (Terminal<S>, nat, Bytes) -> S, t0: Terminal<S>, hist: seq<Command>, k: nat): (r: Terminal<S>)
    requires k <= |hist|
  {
    if k == 0 then t0 else Perform(draw, After(draw, t0, hist, k - 1), k, hist[k - 1])
  }

  /** The newest pixel size among the first `k` commands; zero while none was given. */
  function StickyCell(hist: seq<Command>, k: nat): (cell: (int, int))
    requires k <= |hist|
    ensures cell == (0, 0) || (cell.0 > 0 && cell.1 > 0)
  {
    if k == 0 then (0, 0)
    else if hist[k - 1].Fit? && hist[k - 1].cellWidth > 0 && hist[k - 1].cellHeight > 0
    then (hist[k - 1].cellWidth, hist[k - 1].cellHeight)
    else StickyCell(hist, k - 1)
  }

  /** `e` is a truthful summary of commands `e.First()..e.id` of the history. */
  ghost predicate Matches(hist: seq<Command>, e: Event) {
    && 1 <= e.First() <= e.id <= |hist|
    && match e.kind
       case Output => e.firstID == 0 && hist[e.id - 1] == Emit(e.data)
       case Resize =>
         && (forall i :: e.First() - 1 <= i < e.id ==> hist[i].Fit?)
         && hist[e.id - 1].cols == e.cols && hist[e.id - 1].rows == e.rows
         && StickyCell(hist, e.id) == (e.cellWidth, e.cellHeight)
       case Unknown => false
  }

  /** Histories only grow, and what was true of a prefix stays true. */
  lemma {:induction false} PrefixStable<S>(draw: (Terminal<S>, nat, Bytes) -> S, t0: Terminal<S>,
                                           hist: seq<Command>, more: seq<Command>, k: nat)
    requires k <= |hist|
    ensures After(draw, t0, hist + more, k) == After(draw, t0, hist, k)
    ensures StickyCell(hist + more, k) == StickyCell(hist, k)
  {
    if k > 0 {
      PrefixStable(draw, t0, hist, more, k - 1);
    }
  }

  lemma {:induction false} StickyStable(hist: seq<Command>, more: seq<Command>, k: nat)
    requires k <= |hist|
    ensures StickyCell(hist + more, k) == StickyCell(hist, k)
  {
    if k > 0 {
      StickyStable(hist, more, k - 1);
    }
  }

  lemma MatchesStable(hist: seq<Command>, more: seq<Command>, e: Event)
    requires Matches(hist, e)
    ensures Matches(hist + more, e)
  {
    StickyStable(hist, more, e.id);
    if e.kind == Resize {
      forall i | e.First() - 1 <= i < e.id ensures (hist + more)[i].Fit? {
        assert hist[i].Fit?;
      }
    }
  }

  /** A live terminal's pixel size is the sticky one, or its first one while none was given. */
  lemma {:induction false} CellOfAfter<S>(draw: (Terminal<S>, nat, Bytes) -> S, t0: Terminal<S>,
                                          hist: seq<Command>, k: nat)
    requires k <= |hist|
    ensures var t := After(draw, t0, hist, k);
            (t.cellWidth, t.cellHeight) ==
            if StickyCell(hist, k) == (0, 0) then (t0.cellWidth, t0.cellHeight) else StickyCell(hist, k)
  {
    if k > 0 {
      CellOfAfter(draw, t0, hist, k - 1);
    }
  }

  /** A run of resizes leaves the screen alone and ends at the newest geometry. */
  lemma {:induction false} ResizeRun<S>(draw: (Terminal<S>, nat, Bytes) -> S, t0: Terminal<S>,
                                        hist: seq<Command>, k: nat, n: nat)
    requires k < n <= |hist|
    requires forall i :: k <= i < n ==> hist[i].Fit?
    ensures After(draw, t0, hist, n).screen == After(draw, t0, hist, k).screen
    ensures After(draw, t0, hist, n).cols == hist[n - 1].cols
    ensures After(draw, t0, hist, n).rows == hist[n - 1].rows
    ensures StickyCell(hist, n) == (0, 0) ==> StickyCell(hist, k) == (0, 0)
    decreases n
  {
    assert hist[n - 1].Fit?;
    if k + 1 < n {
      ResizeRun(draw, t0, hist, k, n - 1);
    }
  }

  /**
    The law the journal's coalescing relies on: an event whose span reaches back to
    command `k + 1` takes the terminal after `k` commands to the terminal after
    `e.id` commands, however many resizes it swallowed on the way.
    */
  lemma SpanApplies<S>(draw: (Terminal<S>, nat, Bytes) -> S, t0: Terminal<S>,
                       hist: seq<Command>, k: nat, e: Event)
    requires Matches(hist, e)
    requires e.First() <= k + 1 <= e.id
    ensures Apply(draw, After(draw, t0, hist, k), e) == After(draw, t0, hist, e.id)
  {
    if e.kind == Resize {
      ResizeRun(draw, t0, hist, k, e.id);
      CellOfAfter(draw, t0, hist, k);
      CellOfAfter(draw, t0, hist, e.id);
    }
  }

  /** `events` starts no later than ID `k + 1` and leaves no hole behind it. */
  ghost predicate Chained(k: nat, events: seq<Event>)
    decreases |events|
  {
    events == [] ||
    (events[0].First() <= k + 1 <= events[0].id && Chained(events[0].id, events[1..]))
  }

  function Watermark(k: nat, events: seq<Event>): (w: nat) {
    if events == [] then k else events[|events| - 1].id
  }

  /** Replaying any chained list of truthful events catches up with the live terminal. */
  lemma {:induction false} ChainReplays<S>(draw: (Terminal<S>, nat, Bytes) -> S, t0: Terminal<S>,
                                           hist: seq<Command>, k: nat, events: seq<Event>)
    requires k <= |hist|
    requires Chained(k, events)
    requires forall e :: e in events ==> Matches(hist, e)
    ensures Watermark(k, events) <= |hist|
    ensures Replay(draw, After(draw, t0, hist, k), events) == After(draw, t0, hist, Watermark(k, events))
    decreases |events|
  {
    if events != [] {
      var e := events[0];
      SpanApplies(draw, t0, hist, k, e);
      ChainReplays(draw, t0, hist, e.id, events[1..]);
      assert [e] + events[1..] == events;
      ReplayConcat(draw, After(draw, t0, hist, k), [e], events[1..]);
      assert Replay(draw, After(draw, t0, hist, k), [e]) == Apply(draw, After(draw, t0, hist, k), e) by {
        assert [e][..0] == [];
      }
    }
  }

  /** Chains compose. */
  lemma {:induction false} ChainConcat(k: nat, xs: seq<Event>, ys: seq<Event>)
    requires Chained(k, xs) && Chained(Watermark(k, xs), ys)
    ensures Chained(k, xs + ys)
    ensures Watermark(k, xs + ys) == Watermark(Watermark(k, xs), ys)
    decreases |xs|
  {
    if xs == [] {
      assert xs + ys == ys;
    } else {
      assert (xs + ys)[1..] == xs[1..] + ys;
      ChainConcat(xs[0].id, xs[1..], ys);
    }
  }

  function SumCost(events: seq<Event>): (n: nat) {
    if events == [] then 0 else events[0].Cost() + SumCost(events[1..])
  }

  lemma {:induction false} SumCostSnoc(events: seq<Event>, e: Event)
    ensures SumCost(events + [e]) == SumCost(events) + e.Cost()
  {
    if events == [] {
      assert events + [e] == [e];
    } else {
      assert (events + [e])[1..] == events[1..] + [e];
      SumCostSnoc(events[1..], e);
    }
  }
}
