/** The cursor reader: bounded chunks of raw output, without ever losing a byte silently. */
module RendererOutput {
  import opened RendererEvents
  import opened RendererJournal

  datatype Refusal = InvalidRequest | RetentionExceeded | ChunkTooLarge
  datatype ReadResult = Chunk(data: Bytes, cursor: nat) | Refused(reason: Refusal, cursor: nat)

  /** The output bytes of commands `a + 1 .. b`. */
  function OutputBytes(hist: seq<Command>, a: nat, b: nat): (r: Bytes)
    requires a <= b <= |hist|
  {
    if a == b then []
    else OutputBytes(hist, a, b - 1) + (if hist[b - 1].Emit? then hist[b - 1].data else [])
  }

  /** The size of the first nonempty output after `a`, or zero if there is none. */
  function FirstChunk(hist: seq<Command>, a: nat): (n: nat)
    requires a <= |hist|
    decreases |hist| - a
  {
    if a == |hist| then 0
    else if hist[a].Emit? && hist[a].data != [] then |hist[a].data|
    else FirstChunk(hist, a + 1)
  }

  function Scan(events: seq<Event>, after: nat, limit: int, through: nat, data: Bytes): (r: ReadResult) {
    if events == [] then Chunk(data, through)
    else if events[0].id <= after then Scan(events[1..], after, limit, through, data)
    else if events[0].First() > through + 1 then Refused(RetentionExceeded, after)
    else if events[0].kind == Output then
      if |events[0].data| > limit - |data|
      then if data == [] then Refused(ChunkTooLarge, after) else Chunk(data, through)
      else Scan(events[1..], after, limit, events[0].id, data + events[0].data)
    else Scan(events[1..], after, limit, events[0].id, data)
  }

  function ReadAfter(j: State, after: nat, limit: int): (r: ReadResult) {
    if after > j.nextID || limit <= 0 then Refused(InvalidRequest, after)
    else
      var r := Scan(j.events, after, limit, after, []);
      if r.Chunk? && r.cursor == after && after != j.nextID then Refused(RetentionExceeded, after) else r
  }

  method ReadOutputAfter(j: Journal, after: nat, limit: int) returns (r: ReadResult)
    ensures r == ReadAfter(j.Value(), after, limit)
  {
    if after > j.nextID || limit <= 0 {
      return Refused(InvalidRequest, after);
    }
    var through := after;
    var data: Bytes := [];
    var i := 0;
    assert j.events[0..] == j.events;
    while i < |j.events|
      invariant 0 <= i <= |j.events|
      invariant Scan(j.events, after, limit, after, []) == Scan(j.events[i..], after, limit, through, data)
    {
      var event := j.events[i];
      assert j.events[i..][1..] == j.events[i + 1..];
      i := i + 1;
      if event.id <= after {
        continue;
      }
      if event.First() > through + 1 {
        return Refused(RetentionExceeded, after);
      }
      if event.kind == Output {
        if |event.data| > limit - |data| {
          if |data| == 0 {
            return Refused(ChunkTooLarge, after);
          }
          assert Scan(j.events, after, limit, after, []) == Chunk(data, through);
          break;
        }
        data := data + event.data;
      }
      through := event.id;
    }
    if through == after && after != j.nextID {
      return Refused(RetentionExceeded, after);
    }
    return Chunk(data, through);
  }

  // ----- what a read returns -----

  lemma {:induction false} OutputBytesConcat(hist: seq<Command>, a: nat, b: nat, c: nat)
    requires a <= b <= c <= |hist|
    ensures OutputBytes(hist, a, c) == OutputBytes(hist, a, b) + OutputBytes(hist, b, c)
    decreases c
  {
    if b < c {
      OutputBytesConcat(hist, a, b, c - 1);
    }
  }

  lemma {:induction false} OutputBytesStable(hist: seq<Command>, more: seq<Command>, a: nat, b: nat)
    requires a <= b <= |hist|
    ensures OutputBytes(hist + more, a, b) == OutputBytes(hist, a, b)
    decreases b
  {
    if a < b {
      OutputBytesStable(hist, more, a, b - 1);
    }
  }

  /** A run of resizes carries no bytes. */
  lemma {:induction false} ResizesEmitNothing(hist: seq<Command>, a: nat, b: nat)
    requires a <= b <= |hist|
    requires forall i :: a <= i < b ==> hist[i].Fit?
    ensures OutputBytes(hist, a, b) == []
    decreases b
  {
    if a < b {
      ResizesEmitNothing(hist, a, b - 1);
    }
  }

  lemma {:induction false} ResizesAreSilent(hist: seq<Command>, a: nat, b: nat)
    requires a <= b <= |hist|
    requires forall i :: a <= i < b ==> hist[i].Fit?
    ensures OutputBytes(hist, a, b) == []
    ensures FirstChunk(hist, a) == FirstChunk(hist, b)
    decreases b - a
  {
    ResizesEmitNothing(hist, a, b);
    if a < b {
      ResizesAreSilent(hist, a + 1, b);
    }
  }

  /** One retained event moves the cursor to its ID and adds exactly its own bytes. */
  lemma EventBytes(hist: seq<Command>, a: nat, e: Event)
    requires Matches(hist, e) && e.First() <= a + 1 <= e.id
    ensures OutputBytes(hist, a, e.id) == (if e.kind == Output then e.data else [])
    ensures if e.kind == Output && e.data != [] then FirstChunk(hist, a) == |e.data|
            else FirstChunk(hist, a) == FirstChunk(hist, e.id)
  {
    if e.kind == Resize {
      ResizesAreSilent(hist, a, e.id);
    } else {
      assert OutputBytes(hist, a, a) == [];
    }
  }

  ghost predicate GoodSuffix(events: seq<Event>, hist: seq<Command>) {
    && (forall i :: 0 <= i < |events| ==> Matches(hist, events[i]))
    && Contiguous(events)
    && (events != [] ==> events[|events| - 1].id == |hist|)
  }

  lemma GoodTail(events: seq<Event>, hist: seq<Command>)
    requires GoodSuffix(events, hist) && events != []
    ensures GoodSuffix(events[1..], hist)
    ensures |events| > 1 ==> events[1].First() == events[0].id + 1
    ensures 1 <= events[0].First() <= events[0].id <= |hist|
  {
    var rest := events[1..];
    assert forall i :: 0 <= i < |rest| ==> rest[i] == events[i + 1];
    if |events| > 1 {
      assert events[0 + 1].First() == events[0].id + 1;
    }
  }

  /** What a scan from a covered cursor must answer. */
  ghost predicate Exact(r: ReadResult, hist: seq<Command>, after: nat, limit: int, through: nat, data: Bytes) {
    after <= through <= |hist| &&
    match r
    case Chunk(bytes, cursor) =>
      && through <= cursor <= |hist| && bytes == OutputBytes(hist, after, cursor) && |bytes| <= limit
      && (cursor > after || after == |hist|) && !(data == [] && FirstChunk(hist, through) > limit)
    case Refused(reason, cursor) =>
      reason == ChunkTooLarge && cursor == after && data == [] && FirstChunk(hist, through) > limit
  }

  /** Where a scan stands: the next event continues the cursor, unless the scan is still looking for its start. */
  ghost predicate Covering(events: seq<Event>, hist: seq<Command>, after: nat, through: nat) {
    && GoodSuffix(events, hist)
    && (if events == [] then through == |hist| else events[0].First() <= through + 1)
    && (through > after ==> events == [] || events[0].First() == through + 1)
  }

  lemma CoveringTail(events: seq<Event>, hist: seq<Command>, after: nat, through: nat)
    requires Covering(events, hist, after, through) && events != []
    ensures Covering(events[1..], hist, after, events[0].id) && events[0].id <= |hist|
    ensures events[0].id <= after <= through <= |hist| ==> Covering(events[1..], hist, after, through)
    ensures events[0].id > after && after <= through ==> events[0].id > through && events[0].First() <= through + 1 && Matches(hist, events[0])
  {
    GoodTail(events, hist);
    assert Matches(hist, events[0]);
  }

  /** Scanning from a cursor that the retained events cover. */
  lemma {:induction false} ScanExact(events: seq<Event>, hist: seq<Command>, after: nat, limit: int,
                                     through: nat, data: Bytes)
    requires Covering(events, hist, after, through)
    requires after <= through <= |hist| && limit > 0
    requires data == OutputBytes(hist, after, through) && |data| <= limit
    ensures Exact(Scan(events, after, limit, through, data), hist, after, limit, through, data)
    decreases |events|
  {
    if events != [] {
      var e := events[0];
      CoveringTail(events, hist, after, through);
      if e.id <= after {
        ScanExact(events[1..], hist, after, limit, through, data);
      } else {
        ScanEvent(e, hist, after, limit, through, data);
        if e.kind != Output || |e.data| <= limit - |data| {
          var more := if e.kind == Output then data + e.data else data;
          ScanExact(events[1..], hist, after, limit, e.id, more);
        }
      }
    } else {
      assert FirstChunk(hist, |hist|) == 0;
    }
  }

  /** One event either fits, and moves the cursor by exactly its bytes, or ends the scan. */
  lemma ScanEvent(e: Event, hist: seq<Command>, after: nat, limit: int, through: nat, data: Bytes)
    requires Matches(hist, e) && e.First() <= through + 1 <= e.id && after <= through
    requires data == OutputBytes(hist, after, through) && |data| <= limit
    ensures OutputBytes(hist, after, e.id) == data + (if e.kind == Output then e.data else [])
    ensures data != [] ==> after < through
    ensures if e.kind == Output && e.data != [] then FirstChunk(hist, through) == |e.data| else FirstChunk(hist, through) == FirstChunk(hist, e.id)
  {
    EventBytes(hist, through, e);
    OutputBytesConcat(hist, after, through, e.id);
    if data != [] {
      NonemptyAdvanced(hist, after, through);
    }
  }

  lemma NonemptyAdvanced(hist: seq<Command>, a: nat, b: nat)
    requires a <= b <= |hist|
    requires OutputBytes(hist, a, b) != []
    ensures a < b
  {
  }

  /** Once the oldest retained event starts beyond the cursor, the scan refuses. */
  lemma ScanGap(events: seq<Event>, hist: seq<Command>, after: nat, limit: int)
    requires GoodSuffix(events, hist) && events != []
    requires events[0].First() > after + 1
    ensures Scan(events, after, limit, after, []) == Refused(RetentionExceeded, after)
  {
    assert Matches(hist, events[0]);
  }

  ghost predicate Covered(j: State, after: nat) {
    after == j.nextID || (j.events != [] && j.events[0].First() <= after + 1)
  }

  /**
    A read succeeds exactly when the request is sane, the journal still covers the
    cursor and the next chunk fits; then it returns exactly the bytes between the
    two cursors and advances unless it was already at the end. Otherwise the cursor
    comes back unchanged.
    */
  lemma ReadExact(j: State, hist: seq<Command>, after: nat, limit: int)
    requires Represents(j, hist)
    ensures var r := ReadAfter(j, after, limit);
            && (r.Chunk? <==> after <= |hist| && limit > 0 && Covered(j, after) && FirstChunk(hist, after) <= limit)
            && (r.Chunk? ==>
                  && after <= r.cursor <= |hist|
                  && r.data == OutputBytes(hist, after, r.cursor)
                  && |r.data| <= limit
                  && (r.cursor > after || after == |hist|))
            && (r.Refused? ==> r.cursor == after)
  {
    if after <= |hist| && limit > 0 {
      if j.events != [] {
        assert Matches(hist, j.events[0]);
      }
      if j.events == [] {
        assert OutputBytes(hist, after, after) == [];
      } else if j.events[0].First() <= after + 1 {
        ScanExact(j.events, hist, after, limit, after, []);
      } else {
        ScanGap(j.events, hist, after, limit);
      }
    }
  }

  // ----- readers interleaved with the producer -----

  datatype Act = Append(op: Op) | Read(limit: int)

  datatype Session = Session(journal: State, cursor: nat, got: Bytes)

  function ActOn(s: Session, a: Act): (r: Session) {
    match a
    case Append(op) => s.(journal := Step(s.journal, op))
    case Read(limit) =>
      var r := ReadAfter(s.journal, s.cursor, limit);
      if r.Chunk? then s.(cursor := r.cursor, got := s.got + r.data) else s
  }

  function RunSession(s: Session, acts: seq<Act>): (r: Session) {
    if acts == [] then s else ActOn(RunSession(s, acts[..|acts| - 1]), acts[|acts| - 1])
  }

  function Appends(acts: seq<Act>): (ops: seq<Op>) {
    if acts == [] then []
    else Appends(acts[..|acts| - 1]) + (if acts[|acts| - 1].Append? then [acts[|acts| - 1].op] else [])
  }

  /**
    Under every interleaving of appends, resizes, resets and reads, a reader that
    feeds back its cursor has collected exactly the output bytes between its start
    and its cursor, each once and in order.
    */
  lemma {:induction false} ReaderCollects(maxBytes: int, before: seq<Op>, start: nat, acts: seq<Act>)
    requires start <= |History(before)|
    ensures var ops := before + Appends(acts);
            var s := RunSession(Session(Run(Empty(maxBytes), before), start, []), acts);
            && s.journal == Run(Empty(maxBytes), ops)
            && start <= s.cursor <= |History(ops)|
            && s.got == OutputBytes(History(ops), start, s.cursor)
    decreases |acts|
  {
    var init := Session(Run(Empty(maxBytes), before), start, []);
    if acts == [] {
      assert before + Appends(acts) == before;
      assert OutputBytes(History(before), start, start) == [];
    } else {
      var n := |acts| - 1;
      ReaderCollects(maxBytes, before, start, acts[..n]);
      var s := RunSession(init, acts[..n]);
      var ops := before + Appends(acts[..n]);
      match acts[n]
      case Append(op) =>
        var all := before + Appends(acts);
        assert all == ops + [op];
        assert all[..|all| - 1] == ops;
        OutputBytesStable(History(ops), CommandOf(op), start, s.cursor);
      case Read(limit) =>
        assert before + Appends(acts) == ops;
        RunRepresents(maxBytes, ops);
        ReadExact(s.journal, History(ops), s.cursor, limit);
        var r := ReadAfter(s.journal, s.cursor, limit);
        if r.Chunk? {
          OutputBytesConcat(History(ops), start, s.cursor, r.cursor);
        }
    }
  }
}
