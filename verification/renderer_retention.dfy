/**
  What the journal retains, exactly: of the events a journal without a budget would hold, the
  longest tail that fits. Coalescing leaves no two resizes next to each other, and the journal
  is marked partial exactly when it no longer reaches back to the first command.
  */
module RendererRetention {
  import opened RendererEvents
  import opened RendererJournal

  predicate ResizeLast(events: seq<Event>) {
    events != [] && events[|events| - 1].kind == Resize
  }

  /** The event of the uncut journal for one more resize: it takes the place of a resize in front of it. */
  ghost function NextResize(hist: seq<Command>, all: seq<Event>, cols: int, rows: int, w: int, h: int): (e: Event) {
    var more := hist + [Fit(cols, rows, w, h)];
    Event(|more|, if ResizeLast(all) then all[|all| - 1].First() else 0, Resize, [], cols, rows,
          StickyCell(more, |more|).0, StickyCell(more, |more|).1)
  }

  /** One more operation, without a budget. */
  ghost function Grown(hist: seq<Command>, all: seq<Event>, op: Op): (es: seq<Event>) {
    match op
    case Drop => []
    case Write(data) => all + [Event(|hist| + 1, 0, Output, data, 0, 0, 0, 0)]
    case Size(cols, rows, w, h) =>
      var e := NextResize(hist, all, cols, rows, w, h);
      if ResizeLast(all) then all[..|all| - 1] + [e] else all + [e]
  }

  /** The events since the last reset, one for each output and one for each run of resizes. */
  ghost function Uncut(ops: seq<Op>): (es: seq<Event>) {
    if ops == [] then []
    else Grown(History(ops[..|ops| - 1]), Uncut(ops[..|ops| - 1]), ops[|ops| - 1])
  }

  /** `kept` is the longest tail of `all` that costs at most `budget`. */
  ghost predicate LongestFit(kept: seq<Event>, all: seq<Event>, budget: nat) {
    && |kept| <= |all| && kept == all[|all| - |kept|..]
    && SumCost(kept) <= budget
    && (|kept| < |all| ==> SumCost(all[|all| - |kept| - 1..]) > budget)
  }

  lemma {:induction false} CostGrows(events: seq<Event>, i: nat, k: nat)
    requires i <= k <= |events|
    ensures SumCost(events[k..]) <= SumCost(events[i..])
    decreases k - i
  {
    if i < k {
      CostGrows(events, i + 1, k);
      assert events[i..][1..] == events[i + 1..];
    }
  }

  /** Trimming stops as soon as the rest fits. */
  lemma {:induction false} TrimIsLongestFit(j: State)
    requires j.bytes == SumCost(j.events)
    ensures LongestFit(Trimmed(j).events, j.events, j.maxBytes)
    decreases |j.events|
  {
    if j.bytes > j.maxBytes && |j.events| > 0 {
      var next := j.(events := j.events[1..], bytes := j.bytes - j.events[0].Cost(), partial := true);
      TrimIsLongestFit(next);
      var r := Trimmed(next).events;
      var n := |j.events|;
      assert next.events[|next.events| - |r|..] == j.events[n - |r|..];
      if |r| < |next.events| {
        assert next.events[|next.events| - |r| - 1..] == j.events[n - |r| - 1..];
      } else {
        assert j.events[n - |r| - 1..] == j.events;
      }
    } else {
      assert j.events[0..] == j.events;
    }
  }

  /** What was cut before the last event changed stays cut. */
  lemma FitAfterTrim(events: seq<Event>, kept: seq<Event>, all: seq<Event>, budget: nat)
    requires |events| <= |all| && events == all[|all| - |events|..]
    requires |events| < |all| ==> SumCost(all[|all| - |events| - 1..]) > budget
    requires LongestFit(kept, events, budget)
    ensures LongestFit(kept, all, budget)
  {
    var n := |all| - |events|;
    assert events[|events| - |kept|..] == all[|all| - |kept|..];
    if |kept| < |events| {
      assert events[|events| - |kept| - 1..] == all[|all| - |kept| - 1..];
    }
  }

  lemma SnocFits(kept: seq<Event>, all: seq<Event>, budget: nat, e: Event)
    requires LongestFit(kept, all, budget)
    ensures kept + [e] == (all + [e])[|all| - |kept|..]
    ensures |kept| < |all| ==> SumCost((all + [e])[|all| - |kept| - 1..]) > budget
  {
    if |kept| < |all| {
      var tail := all[|all| - |kept| - 1..];
      assert (all + [e])[|all| - |kept| - 1..] == tail + [e];
      SumCostSnoc(tail, e);
    }
  }

  /** Replacing the last event by one of the same cost changes no tail's cost. */
  lemma SwapFits(all: seq<Event>, i: nat, e: Event)
    requires i < |all| && all[|all| - 1].Cost() == e.Cost()
    ensures SumCost((all[..|all| - 1] + [e])[i..]) == SumCost(all[i..])
  {
    var n := |all| - 1;
    var front := all[i..n];
    assert all[i..] == front + [all[n]];
    assert (all[..n] + [e])[i..] == front + [e];
    SumCostSnoc(front, all[n]);
    SumCostSnoc(front, e);
  }

  lemma LastFits(kept: seq<Event>, all: seq<Event>, budget: nat)
    requires LongestFit(kept, all, budget) && all != []
    ensures kept == [] ==> all[|all| - 1].Cost() > budget
    ensures kept != [] ==> kept[|kept| - 1] == all[|all| - 1]
  {
    if kept == [] {
      var last := all[|all| - 1..];
      assert last[1..] == [];
    }
  }

  /** How a resize changes what is retained before trimming. */
  lemma ResizeFits(kept: seq<Event>, all: seq<Event>, budget: nat, e: Event)
    requires LongestFit(kept, all, budget) && kept != [] && ResizeLast(all) && e.kind == Resize
    ensures var more, tail := all[..|all| - 1] + [e], kept[..|kept| - 1] + [e];
            && tail == more[|more| - |tail|..]
            && (|tail| < |more| ==> SumCost(more[|more| - |tail| - 1..]) > budget)
  {
    var n, k := |all| - 1, |all| - |kept|;
    assert kept == all[k..];
    assert kept[..|kept| - 1] == all[k..n];
    assert (all[..n] + [e])[k..] == all[k..n] + [e];
    if |kept| < |all| {
      SwapFits(all, k - 1, e);
    }
  }

  lemma NothingFits(all: seq<Event>, budget: nat)
    requires all != [] && all[|all| - 1].Cost() > budget
    ensures LongestFit([], all, budget)
  {
    assert all[|all|..] == [];
    assert all[|all| - 1..] == [all[|all| - 1]] && [all[|all| - 1]][1..] == [];
  }

  /** Trimming what is a tail of all events, beyond which nothing fitted, leaves the longest tail that fits. */
  lemma TrimmedFits(a: State, all: seq<Event>)
    requires a.bytes == SumCost(a.events) && |a.events| <= |all| && a.events == all[|all| - |a.events|..]
    requires |a.events| < |all| ==> SumCost(all[|all| - |a.events| - 1..]) > a.maxBytes
    ensures LongestFit(Trimmed(a).events, all, a.maxBytes)
  {
    TrimIsLongestFit(a);
    FitAfterTrim(a.events, Trimmed(a).events, all, a.maxBytes);
  }

  lemma WriteFits(j: State, all: seq<Event>, data: Bytes)
    requires j.bytes == SumCost(j.events) && LongestFit(j.events, all, j.maxBytes)
    ensures LongestFit(Written(j, data).events, all + [OutputEvent(j, data)], j.maxBytes)
  {
    var e := OutputEvent(j, data);
    AppendedEvents(j, e);
    AppendFits(Appended(j, e), j.events, all, e);
  }

  lemma AppendedEvents(j: State, e: Event)
    requires j.bytes == SumCost(j.events)
    ensures var a := Appended(j, e); a.maxBytes == j.maxBytes && a.events == j.events + [e] && a.bytes == SumCost(a.events)
  {
    SumCostSnoc(j.events, e);
  }

  lemma AppendFits(a: State, kept: seq<Event>, all: seq<Event>, e: Event)
    requires LongestFit(kept, all, a.maxBytes) && a.events == kept + [e] && a.bytes == SumCost(a.events)
    ensures LongestFit(Trimmed(a).events, all + [e], a.maxBytes)
  {
    SnocFits(kept, all, a.maxBytes, e);
    TrimmedFits(a, all + [e]);
  }

  lemma CoalescedEvents(j: State, e: Event)
    requires j.bytes == SumCost(j.events)
    ensures var a := Coalesced(j, e);
            && a.maxBytes == j.maxBytes && a.bytes == SumCost(a.events)
            && a.events == (if ResizeLast(j.events) then j.events[..|j.events| - 1] else j.events) + [e]
  {
    CoalescedCost(j, e);
  }

  /** A resize with a resize in front of it that is still retained. */
  lemma CoalescedFits(j: State, all: seq<Event>, e: Event)
    requires j.bytes == SumCost(j.events) && LongestFit(j.events, all, j.maxBytes)
    requires j.events != [] && ResizeLast(all) && e.kind == Resize
    ensures LongestFit(Trimmed(Coalesced(j, e)).events, all[..|all| - 1] + [e], j.maxBytes)
  {
    LastFits(j.events, all, j.maxBytes);
    CoalescedEvents(j, e);
    ResizeFits(j.events, all, j.maxBytes, e);
    TrimmedFits(Coalesced(j, e), all[..|all| - 1] + [e]);
  }

  /** A resize with none in front of it. */
  lemma AddedFits(j: State, all: seq<Event>, e: Event)
    requires j.bytes == SumCost(j.events) && LongestFit(j.events, all, j.maxBytes) && !ResizeLast(all)
    ensures LongestFit(Trimmed(Coalesced(j, e)).events, all + [e], j.maxBytes)
  {
    if all != [] {
      LastFits(j.events, all, j.maxBytes);
    }
    CoalescedEvents(j, e);
    AppendFits(Coalesced(j, e), j.events, all, e);
  }

  /** No resize fits at all. */
  lemma NeverFits(j: State, all: seq<Event>, e: Event, other: Event)
    requires j.bytes == SumCost(j.events) && LongestFit(j.events, all, j.maxBytes) && j.events == [] && ResizeLast(all)
    requires e.kind == Resize && other.kind == Resize
    ensures LongestFit(Trimmed(Coalesced(j, e)).events, all[..|all| - 1] + [other], j.maxBytes)
  {
    LastFits(j.events, all, j.maxBytes);
    var a := Coalesced(j, e);
    assert a.events == [e] && a.events[1..] == [];
    CoalescedCost(j, e);
    assert Trimmed(a).events == [];
    NothingFits(all[..|all| - 1] + [other], j.maxBytes);
  }

  lemma SameResize(j: State, hist: seq<Command>, all: seq<Event>, cols: int, rows: int, w: int, h: int)
    requires Represents(j, hist) && EndsInResize(j) == ResizeLast(all)
    requires EndsInResize(j) ==> j.events[|j.events| - 1] == all[|all| - 1]
    ensures ResizeEvent(j, cols, rows, w, h) == NextResize(hist, all, cols, rows, w, h)
  {
    ResizeMatches(j, hist, cols, rows, w, h);
  }

  lemma SizeFits(j: State, hist: seq<Command>, all: seq<Event>, cols: int, rows: int, w: int, h: int)
    requires Represents(j, hist) && LongestFit(j.events, all, j.maxBytes)
    ensures var e := NextResize(hist, all, cols, rows, w, h);
            LongestFit(Resized(j, cols, rows, w, h).events, if ResizeLast(all) then all[..|all| - 1] + [e] else all + [e], j.maxBytes)
  {
    var e, next := ResizeEvent(j, cols, rows, w, h), NextResize(hist, all, cols, rows, w, h);
    if all != [] {
      LastFits(j.events, all, j.maxBytes);
    }
    if j.events == [] && ResizeLast(all) {
      NeverFits(j, all, e, next);
    } else {
      SameResize(j, hist, all, cols, rows, w, h);
      if ResizeLast(all) {
        CoalescedFits(j, all, e);
      } else {
        AddedFits(j, all, e);
      }
    }
  }

  lemma StepFits(j: State, hist: seq<Command>, all: seq<Event>, op: Op)
    requires Represents(j, hist) && LongestFit(j.events, all, j.maxBytes)
    ensures LongestFit(Step(j, op).events, Grown(hist, all, op), j.maxBytes)
  {
    match op
    case Drop =>
    case Write(data) => WriteFits(j, all, data);
    case Size(cols, rows, w, h) => SizeFits(j, hist, all, cols, rows, w, h);
  }

  /** In every run, exactly the longest tail of the uncut events that fits the budget is retained. */
  lemma {:induction false} RetainedIsLongestFit(maxBytes: int, ops: seq<Op>)
    ensures LongestFit(Run(Empty(maxBytes), ops).events, Uncut(ops), Budget(maxBytes))
  {
    if ops != [] {
      var n := |ops| - 1;
      RetainedIsLongestFit(maxBytes, ops[..n]);
      RunRepresents(maxBytes, ops[..n]);
      StepFits(Run(Empty(maxBytes), ops[..n]), History(ops[..n]), Uncut(ops[..n]), ops[n]);
    }
  }

  /** Every event of the uncut journal lies between its neighbours. */
  ghost predicate Ascending(events: seq<Event>, last: nat) {
    && (forall i, k :: 0 <= i < k < |events| ==> events[i].id < events[k].id)
    && (events != [] ==> events[|events| - 1].id <= last)
  }

  ghost predicate NoTwoResizes(events: seq<Event>) {
    forall i, k :: 0 <= i && k == i + 1 && k < |events| ==> !(events[i].kind == Resize && events[k].kind == Resize)
  }

  lemma GrownShape(hist: seq<Command>, all: seq<Event>, op: Op)
    requires Ascending(all, |hist|) && NoTwoResizes(all)
    ensures Ascending(Grown(hist, all, op), |hist| + |CommandOf(op)|) && NoTwoResizes(Grown(hist, all, op))
  {
    if all != [] {
      assert forall i :: 0 <= i < |all| - 1 ==> all[i].id < all[|all| - 1].id;
    }
  }

  lemma {:induction false} UncutShape(ops: seq<Op>)
    ensures Ascending(Uncut(ops), |History(ops)|) && NoTwoResizes(Uncut(ops))
  {
    if ops != [] {
      var n := |ops| - 1;
      UncutShape(ops[..n]);
      GrownShape(History(ops[..n]), Uncut(ops[..n]), ops[n]);
    }
  }

  lemma FitsIff(kept: seq<Event>, all: seq<Event>, budget: nat, last: nat, i: nat)
    requires LongestFit(kept, all, budget) && Ascending(all, last) && i < |all|
    ensures all[i] in kept <==> SumCost(all[i..]) <= budget
  {
    var k := |all| - |kept|;
    if i < k {
      CostGrows(all, i, k - 1);
      forall m | 0 <= m < |kept| ensures kept[m] != all[i] {
        assert kept[m] == all[k + m] && all[i].id < all[k + m].id;
      }
    } else {
      CostGrows(all, k, i);
      assert kept[i - k] == all[i];
    }
  }

  function Payload(events: seq<Event>): (n: nat) {
    if events == [] then 0 else (if events[0].kind == Resize then 0 else |events[0].data|) + Payload(events[1..])
  }

  function Resizes(events: seq<Event>): (n: nat) {
    if events == [] then 0 else (if events[0].kind == Resize then 1 else 0) + Resizes(events[1..])
  }

  lemma {:induction false} CostIs(events: seq<Event>)
    ensures SumCost(events) == Payload(events) + 64 * Resizes(events)
  {
    if events != [] {
      CostIs(events[1..]);
    }
  }

  /**
    In every run, an event is retained if and only if it was neither superseded nor reset and what
    follows it, itself included, fits: the bytes of output and 64 for each resize, against the
    budget asked for or one mebibyte.
    */
  lemma RetainedIff(maxBytes: int, ops: seq<Op>, i: nat)
    requires i < |Uncut(ops)|
    ensures Uncut(ops)[i] in Run(Empty(maxBytes), ops).events <==>
            Payload(Uncut(ops)[i..]) + 64 * Resizes(Uncut(ops)[i..]) <= if maxBytes > 0 then maxBytes else 1048576
  {
    RetainedIsLongestFit(maxBytes, ops);
    UncutShape(ops);
    FitsIff(Run(Empty(maxBytes), ops).events, Uncut(ops), Budget(maxBytes), |History(ops)|, i);
    CostIs(Uncut(ops)[i..]);
  }

  /** In every run no two resizes are retained next to each other. */
  lemma NeverTwoResizes(maxBytes: int, ops: seq<Op>)
    ensures NoTwoResizes(Run(Empty(maxBytes), ops).events)
  {
    RetainedIsLongestFit(maxBytes, ops);
    UncutShape(ops);
    var all, kept := Uncut(ops), Run(Empty(maxBytes), ops).events;
    assert forall m :: 0 <= m < |kept| ==> kept[m] == all[|all| - |kept| + m];
  }

  // ----- partial -----

  ghost predicate ReachesBack(events: seq<Event>, hist: seq<Command>) {
    if events == [] then hist == [] else events[0].First() == 1
  }

  ghost predicate Late(events: seq<Event>, hist: seq<Command>) {
    if events == [] then hist != [] else events[0].First() > 1
  }

  lemma {:induction false} TrimLate(j: State, hist: seq<Command>)
    requires Retains(j.events, j.partial, hist) && (j.partial ==> Late(j.events, hist))
    ensures Trimmed(j).partial ==> Late(Trimmed(j).events, hist)
    decreases |j.events|
  {
    if j.bytes > j.maxBytes && |j.events| > 0 {
      DropRetains(j.events, j.partial, hist);
      assert Matches(hist, j.events[0]);
      if |j.events| > 1 {
        assert j.events[0 + 1].First() == j.events[0].id + 1;
      }
      TrimLate(j.(events := j.events[1..], bytes := j.bytes - j.events[0].Cost(), partial := true), hist);
    }
  }

  lemma WriteLate(j: State, hist: seq<Command>, data: Bytes)
    requires Represents(j, hist) && (j.partial ==> Late(j.events, hist))
    ensures Written(j, data).partial ==> Late(Written(j, data).events, hist + [Emit(data)])
  {
    AppendTracks(j, hist, data);
    TrimLate(Appended(j, OutputEvent(j, data)), hist + [Emit(data)]);
  }

  lemma ResizeLate(j: State, hist: seq<Command>, cols: int, rows: int, w: int, h: int)
    requires Represents(j, hist) && (j.partial ==> Late(j.events, hist))
    ensures Resized(j, cols, rows, w, h).partial ==> Late(Resized(j, cols, rows, w, h).events, hist + [Fit(cols, rows, w, h)])
  {
    CoalescedTracks(j, hist, cols, rows, w, h);
    TrimLate(Coalesced(j, ResizeEvent(j, cols, rows, w, h)), hist + [Fit(cols, rows, w, h)]);
  }

  lemma StepLate(j: State, hist: seq<Command>, op: Op)
    requires Represents(j, hist) && (j.partial ==> Late(j.events, hist))
    ensures Step(j, op).partial ==> Late(Step(j, op).events, hist + CommandOf(op))
  {
    match op
    case Drop =>
      assert hist + [] == hist;
      if j.events != [] {
        assert Matches(hist, j.events[0]);
      }
    case Write(data) => WriteLate(j, hist, data);
    case Size(cols, rows, w, h) => ResizeLate(j, hist, cols, rows, w, h);
  }

  lemma {:induction false} RunLate(maxBytes: int, ops: seq<Op>)
    ensures Run(Empty(maxBytes), ops).partial ==> Late(Run(Empty(maxBytes), ops).events, History(ops))
  {
    if ops != [] {
      var n := |ops| - 1;
      RunLate(maxBytes, ops[..n]);
      RunRepresents(maxBytes, ops[..n]);
      StepLate(Run(Empty(maxBytes), ops[..n]), History(ops[..n]), ops[n]);
    }
  }

  /** In every run the journal is marked partial if and only if it does not reach back to the first command. */
  lemma PartialIff(maxBytes: int, ops: seq<Op>)
    ensures Run(Empty(maxBytes), ops).partial <==> !ReachesBack(Run(Empty(maxBytes), ops).events, History(ops))
  {
    RunLate(maxBytes, ops);
    RunRepresents(maxBytes, ops);
  }
}
