/**
  The append-only renderer journal: IDs, resize coalescing, the byte budget and
  reset, tied to the ghost history of every command that was ever appended.
  */
module RendererJournal {
  import opened RendererEvents

  datatype State = State(maxBytes: nat, nextID: nat, events: seq<Event>, bytes: int, partial: bool,
                         cols: int, rows: int, cellWidth: int, cellHeight: int)

  datatype Snapshot = Snapshot(events: seq<Event>, partial: bool, bytes: int, cols: int, rows: int,
                               lastID: nat, cellWidth: int, cellHeight: int)

  function Budget(maxBytes: int): (b: nat)
    ensures b > 0
  {
    if maxBytes <= 0 then DEFAULT_JOURNAL_BYTES else maxBytes
  }

  function Empty(maxBytes: int): (j: State) {
    State(Budget(maxBytes), 0, [], 0, false, 0, 0, 0, 0)
  }

  function Trimmed(j: State): (r: State)
    decreases |j.events|
  {
    if j.bytes > j.maxBytes && |j.events| > 0
    then Trimmed(j.(events := j.events[1..], bytes := j.bytes - j.events[0].Cost(), partial := true))
    else j
  }

  function OutputEvent(j: State, data: Bytes): (e: Event) {
    Event(j.nextID + 1, 0, Output, data, 0, 0, 0, 0)
  }

  function Appended(j: State, e: Event): (r: State) {
    j.(nextID := e.id, events := j.events + [e], bytes := j.bytes + e.Cost())
  }

  function Written(j: State, data: Bytes): (r: State) {
    Trimmed(Appended(j, OutputEvent(j, data)))
  }

  predicate EndsInResize(j: State) {
    |j.events| > 0 && j.events[|j.events| - 1].kind == Resize
  }

  function ResizeEvent(j: State, cols: int, rows: int, w: int, h: int): (e: Event) {
    var (cw, ch) := if w > 0 && h > 0 then (w, h) else (j.cellWidth, j.cellHeight);
    Event(j.nextID + 1, if EndsInResize(j) then j.events[|j.events| - 1].First() else 0,
          Resize, [], cols, rows, cw, ch)
  }

  /** The new geometry takes the place of a resize that was last. */
  function Coalesced(j: State, e: Event): (r: State) {
    var kept := if EndsInResize(j) then j.events[..|j.events| - 1] else j.events;
    var credit := if EndsInResize(j) then j.events[|j.events| - 1].Cost() else 0;
    j.(nextID := e.id, events := kept + [e], bytes := j.bytes - credit + e.Cost(),
       cols := e.cols, rows := e.rows, cellWidth := e.cellWidth, cellHeight := e.cellHeight)
  }

  function Resized(j: State, cols: int, rows: int, w: int, h: int): (r: State) {
    Trimmed(Coalesced(j, ResizeEvent(j, cols, rows, w, h)))
  }

  function Dropped(j: State): (r: State) {
    if |j.events| == 0 then j else j.(events := [], bytes := 0, partial := true)
  }

  function Snap(j: State): (s: Snapshot) {
    Snapshot(j.events, j.partial, j.bytes, j.cols, j.rows, j.nextID, j.cellWidth, j.cellHeight)
  }

  // ----- the journal as an object -----

  /** The journal the daemon holds; each method is one critical section of its mutex. */
  class Journal {
    const maxBytes: nat
    var nextID: nat
    var events: seq<Event>
    var bytes: int
    var partial: bool
    var cols: int
    var rows: int
    var cellWidth: int
    var cellHeight: int

    function Value(): (s: State)
      reads this
    {
      State(maxBytes, nextID, events, bytes, partial, cols, rows, cellWidth, cellHeight)
    }

    constructor (maxBytes: int)
      ensures Value() == Empty(maxBytes)
    {
      this.maxBytes := if maxBytes <= 0 then DEFAULT_JOURNAL_BYTES else maxBytes;
      nextID, events, bytes, partial := 0, [], 0, false;
      cols, rows, cellWidth, cellHeight := 0, 0, 0, 0;
    }

    method AppendOutput(data: Bytes) returns (event: Event)
      modifies this
      ensures event == old(OutputEvent(Value(), data))
      ensures Value() == old(Written(Value(), data))
    {
      nextID := nextID + 1;
      event := Event(nextID, 0, Output, data, 0, 0, 0, 0);
      events := events + [event];
      bytes := bytes + event.Cost();
      TrimToBudget();
    }

    method AppendResizePixels(newCols: int, newRows: int, width: int, height: int) returns (event: Event)
      modifies this
      ensures event == old(ResizeEvent(Value(), newCols, newRows, width, height))
      ensures Value() == old(Resized(Value(), newCols, newRows, width, height))
    {
      if width > 0 && height > 0 {
        cellWidth, cellHeight := width, height;
      }
      nextID := nextID + 1;
      event := Event(nextID, 0, Resize, [], newCols, newRows, cellWidth, cellHeight);
      var last := |events| - 1;
      if last >= 0 && events[last].kind == Resize {
        event := event.(firstID := events[last].firstID);
        if event.firstID == 0 {
          event := event.(firstID := events[last].id);
        }
        bytes := bytes - events[last].Cost();
        assert events[last := event] == events[..last] + [event];
        events := events[last := event];
      } else {
        events := events + [event];
      }
      bytes := bytes + event.Cost();
      cols, rows := newCols, newRows;
      TrimToBudget();
    }

    method Reset()
      modifies this
      ensures Value() == old(Dropped(Value()))
    {
      if |events| == 0 {
        return;
      }
      events := [];
      bytes := 0;
      partial := true;
    }

    method TrimToBudget()
      modifies this
      ensures Value() == old(Trimmed(Value()))
    {
      while bytes > maxBytes && |events| > 0
        invariant Trimmed(Value()) == old(Trimmed(Value()))
        decreases |events|
      {
        var removed := events[0];
        events := events[1..];
        bytes := bytes - removed.Cost();
        partial := true;
      }
    }

    method TakeSnapshot() returns (s: Snapshot)
      ensures s == Snap(Value())
    {
      s := Snapshot(events, partial, bytes, cols, rows, nextID, cellWidth, cellHeight);
    }
  }

  // ----- what the journal remembers of its history -----

  /** Each event begins where the previous one ended. */
  ghost predicate Contiguous(events: seq<Event>) {
    forall i :: 0 <= i < |events| - 1 ==> events[i + 1].First() == events[i].id + 1
  }

  ghost predicate LastGeometry(hist: seq<Command>, cols: int, rows: int) {
    if hist == [] then cols == 0 && rows == 0
    else if hist[|hist| - 1].Fit? then cols == hist[|hist| - 1].cols && rows == hist[|hist| - 1].rows
    else LastGeometry(hist[..|hist| - 1], cols, rows)
  }

  /** The retained events are a truthful, gapless suffix of `hist`. */
  ghost predicate Retains(events: seq<Event>, partial: bool, hist: seq<Command>) {
    && (forall i :: 0 <= i < |events| ==> Matches(hist, events[i]))
    && Contiguous(events)
    && (events != [] ==> events[|events| - 1].id == |hist|)
    && (!partial ==> if events == [] then hist == [] else events[0].First() == 1)
  }

  /** Everything but the budget. */
  ghost predicate Tracks(j: State, hist: seq<Command>) {
    && j.nextID == |hist|
    && Retains(j.events, j.partial, hist)
    && (j.cellWidth, j.cellHeight) == StickyCell(hist, |hist|)
    && LastGeometry(hist, j.cols, j.rows)
    && j.bytes == SumCost(j.events)
  }

  ghost predicate Represents(j: State, hist: seq<Command>) {
    Tracks(j, hist) && j.bytes <= j.maxBytes
  }

  /** Dropping the oldest event keeps a truthful, gapless suffix, now marked partial. */
  lemma DropRetains(events: seq<Event>, partial: bool, hist: seq<Command>)
    requires Retains(events, partial, hist) && events != []
    ensures Retains(events[1..], true, hist) && SumCost(events[1..]) == SumCost(events) - events[0].Cost()
  {
  }

  /** Trimming drops only from the front, says so, and ends within the budget. */
  lemma {:induction false} TrimKeepsSuffix(j: State, hist: seq<Command>)
    requires Retains(j.events, j.partial, hist)
    requires j.bytes == SumCost(j.events)
    ensures var r := Trimmed(j);
            Retains(r.events, r.partial, hist) && r.bytes == SumCost(r.events) <= r.maxBytes
    decreases |j.events|
  {
    if j.bytes > j.maxBytes && |j.events| > 0 {
      DropRetains(j.events, j.partial, hist);
      TrimKeepsSuffix(j.(events := j.events[1..], bytes := j.bytes - j.events[0].Cost(), partial := true), hist);
    }
  }

  lemma {:induction false} TrimDropsFront(j: State)
    ensures var r := Trimmed(j);
            && r == j.(events := r.events, bytes := r.bytes, partial := r.partial)
            && |r.events| <= |j.events| && r.events == j.events[|j.events| - |r.events|..]
            && r.partial == (j.partial || |r.events| < |j.events|)
    decreases |j.events|
  {
    if j.bytes > j.maxBytes && |j.events| > 0 {
      TrimDropsFront(j.(events := j.events[1..], bytes := j.bytes - j.events[0].Cost(), partial := true));
    }
  }

  lemma TrimRepresents(j: State, hist: seq<Command>)
    requires Tracks(j, hist)
    ensures Represents(Trimmed(j), hist) && Trimmed(j).maxBytes == j.maxBytes
  {
    TrimKeepsSuffix(j, hist);
    TrimDropsFront(j);
  }

  lemma GrowRetains(j: State, hist: seq<Command>, c: Command, kept: seq<Event>, e: Event)
    requires Represents(j, hist)
    requires kept <= j.events
    requires Matches(hist + [c], e) && e.id == j.nextID + 1
    requires kept == j.events ==> e.First() == j.nextID + 1
    requires kept != j.events ==>
               && |kept| == |j.events| - 1
               && e.First() == j.events[|kept|].First()
    ensures Retains(kept + [e], j.partial, hist + [c])
  {
    forall i | 0 <= i < |kept| ensures Matches(hist + [c], kept[i]) {
      assert kept[i] == j.events[i];
      MatchesStable(hist, [c], kept[i]);
    }
    var events := kept + [e];
    forall i | 0 <= i < |events| - 1 ensures events[i + 1].First() == events[i].id + 1 {
      assert events[i] == j.events[i];
      if i + 1 < |kept| {
        assert events[i + 1] == j.events[i + 1];
      }
    }
  }

  /** Output changes neither the geometry nor the pixel size. */
  lemma EmitKeepsSize(hist: seq<Command>, data: Bytes, cols: int, rows: int)
    requires LastGeometry(hist, cols, rows)
    ensures LastGeometry(hist + [Emit(data)], cols, rows)
    ensures StickyCell(hist + [Emit(data)], |hist| + 1) == StickyCell(hist, |hist|)
  {
    StickyStable(hist, [Emit(data)], |hist|);
    assert (hist + [Emit(data)])[..|hist|] == hist;
  }

  lemma AppendTracks(j: State, hist: seq<Command>, data: Bytes)
    requires Represents(j, hist)
    ensures Tracks(Appended(j, OutputEvent(j, data)), hist + [Emit(data)])
    ensures Matches(hist + [Emit(data)], OutputEvent(j, data))
  {
    var e := OutputEvent(j, data);
    GrowRetains(j, hist, Emit(data), j.events, e);
    SumCostSnoc(j.events, e);
    EmitKeepsSize(hist, data, j.cols, j.rows);
  }

  lemma WriteRepresents(j: State, hist: seq<Command>, data: Bytes)
    requires Represents(j, hist)
    ensures Represents(Written(j, data), hist + [Emit(data)])
    ensures Matches(hist + [Emit(data)], OutputEvent(j, data))
    ensures Written(j, data).maxBytes == j.maxBytes
  {
    AppendTracks(j, hist, data);
    TrimRepresents(Appended(j, OutputEvent(j, data)), hist + [Emit(data)]);
  }

  lemma ResizeMatches(j: State, hist: seq<Command>, cols: int, rows: int, w: int, h: int)
    requires Represents(j, hist)
    ensures Matches(hist + [Fit(cols, rows, w, h)], ResizeEvent(j, cols, rows, w, h))
  {
    var c := Fit(cols, rows, w, h);
    var e := ResizeEvent(j, cols, rows, w, h);
    StickyStable(hist, [c], |hist|);
    if EndsInResize(j) {
      var last := j.events[|j.events| - 1];
      assert Matches(hist, last);
      forall i | e.First() - 1 <= i < e.id ensures (hist + [c])[i].Fit? {
        assert i < |hist| ==> hist[i].Fit?;
      }
    }
  }

  lemma CoalescedCost(j: State, e: Event)
    requires j.bytes == SumCost(j.events)
    ensures Coalesced(j, e).bytes == SumCost(Coalesced(j, e).events)
  {
    var kept := if EndsInResize(j) then j.events[..|j.events| - 1] else j.events;
    SumCostSnoc(kept, e);
    if EndsInResize(j) {
      assert j.events == kept + [j.events[|kept|]];
      SumCostSnoc(kept, j.events[|kept|]);
    }
  }

  lemma CoalescedTracks(j: State, hist: seq<Command>, cols: int, rows: int, w: int, h: int)
    requires Represents(j, hist)
    ensures Tracks(Coalesced(j, ResizeEvent(j, cols, rows, w, h)), hist + [Fit(cols, rows, w, h)])
  {
    var c, e := Fit(cols, rows, w, h), ResizeEvent(j, cols, rows, w, h);
    ResizeMatches(j, hist, cols, rows, w, h);
    GrowRetains(j, hist, c, if EndsInResize(j) then j.events[..|j.events| - 1] else j.events, e);
    CoalescedCost(j, e);
    StickyStable(hist, [c], |hist|);
  }

  lemma ResizeRepresents(j: State, hist: seq<Command>, cols: int, rows: int, w: int, h: int)
    requires Represents(j, hist)
    ensures Represents(Resized(j, cols, rows, w, h), hist + [Fit(cols, rows, w, h)])
    ensures Matches(hist + [Fit(cols, rows, w, h)], ResizeEvent(j, cols, rows, w, h))
    ensures Resized(j, cols, rows, w, h).maxBytes == j.maxBytes
  {
    ResizeMatches(j, hist, cols, rows, w, h);
    CoalescedTracks(j, hist, cols, rows, w, h);
    TrimRepresents(Coalesced(j, ResizeEvent(j, cols, rows, w, h)), hist + [Fit(cols, rows, w, h)]);
  }

  // ----- whole runs -----

  datatype Op = Write(data: Bytes) | Size(cols: int, rows: int, cellWidth: int, cellHeight: int) | Drop

  function Step(j: State, op: Op): (r: State) {
    match op
    case Write(data) => Written(j, data)
    case Size(cols, rows, w, h) => Resized(j, cols, rows, w, h)
    case Drop => Dropped(j)
  }

  function Run(j: State, ops: seq<Op>): (r: State) {
    if ops == [] then j else Step(Run(j, ops[..|ops| - 1]), ops[|ops| - 1])
  }

  function CommandOf(op: Op): (cs: seq<Command>) {
    match op
    case Write(data) => [Emit(data)]
    case Size(cols, rows, w, h) => [Fit(cols, rows, w, h)]
    case Drop => []
  }

  /** Every command of a run, whatever was since coalesced, trimmed or dropped. */
  function History(ops: seq<Op>): (hist: seq<Command>) {
    if ops == [] then [] else History(ops[..|ops| - 1]) + CommandOf(ops[|ops| - 1])
  }

  function EventOf(j: State, op: Op): (es: seq<Event>) {
    match op
    case Write(data) => [OutputEvent(j, data)]
    case Size(cols, rows, w, h) => [ResizeEvent(j, cols, rows, w, h)]
    case Drop => []
  }

  /** The event each append returned, in order: what the daemon sends to its worker. */
  function Issued(j: State, ops: seq<Op>): (es: seq<Event>) {
    if ops == [] then []
    else Issued(j, ops[..|ops| - 1]) + EventOf(Run(j, ops[..|ops| - 1]), ops[|ops| - 1])
  }

  /** A run that starts with a resize has a history that does. */
  lemma {:induction false} HistoryStarts(ops: seq<Op>)
    requires ops != [] && ops[0].Size?
    ensures History(ops) != [] && History(ops)[0].Fit?
  {
    var n := |ops| - 1;
    if n > 0 {
      HistoryStarts(ops[..n]);
    } else {
      assert History(ops) == [] + CommandOf(ops[0]);
    }
  }

  lemma StepRepresents(j: State, hist: seq<Command>, op: Op)
    requires Represents(j, hist)
    ensures Represents(Step(j, op), hist + CommandOf(op))
    ensures Step(j, op).maxBytes == j.maxBytes
    ensures forall e :: e in EventOf(j, op) ==> Matches(hist + CommandOf(op), e) && e.id == |hist| + 1
  {
    match op
    case Write(data) => WriteRepresents(j, hist, data);
    case Size(cols, rows, w, h) => ResizeRepresents(j, hist, cols, rows, w, h);
    case Drop => assert hist + [] == hist;
  }

  /**
    Over every run from a fresh journal the retained events are a truthful, gapless
    suffix of the complete history, the accounting is exact and within budget, the
    sticky geometry is the history's, and a journal that is not marked partial
    still reaches back to the first command.
    */
  lemma {:induction false} RunRepresents(maxBytes: int, ops: seq<Op>)
    ensures Represents(Run(Empty(maxBytes), ops), History(ops))
    ensures Run(Empty(maxBytes), ops).maxBytes == Budget(maxBytes)
  {
    if ops != [] {
      var n := |ops| - 1;
      RunRepresents(maxBytes, ops[..n]);
      StepRepresents(Run(Empty(maxBytes), ops[..n]), History(ops[..n]), ops[n]);
    }
  }

  /** One event is issued per command, and each is a truthful summary of the history. */
  lemma {:induction false} IssuedMatch(maxBytes: int, ops: seq<Op>)
    ensures |Issued(Empty(maxBytes), ops)| == |History(ops)|
    ensures forall i :: 0 <= i < |History(ops)| ==>
                          && Issued(Empty(maxBytes), ops)[i].id == i + 1
                          && Matches(History(ops), Issued(Empty(maxBytes), ops)[i])
  {
    if ops != [] {
      var n := |ops| - 1;
      var before := ops[..n];
      var es: seq<Event> := Issued(Empty(maxBytes), before);
      IssuedMatch(maxBytes, before);
      RunRepresents(maxBytes, before);
      var j := Run(Empty(maxBytes), before);
      StepRepresents(j, History(before), ops[n]);
      var added: seq<Event> := EventOf(j, ops[n]);
      forall i | 0 <= i < |History(ops)|
        ensures (es + added)[i].id == i + 1 && Matches(History(ops), (es + added)[i])
      {
        if i < |es| {
          MatchesStable(History(before), CommandOf(ops[n]), es[i]);
        } else {
          assert (es + added)[i] in added;
        }
      }
    }
  }
}
