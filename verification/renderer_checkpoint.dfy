/**
  Checkpoint tails: which retained events a renderer restored at watermark `k`
  still has to replay, and whether they are all there.
  */
module RendererCheckpoint {
  import opened RendererEvents
  import opened RendererJournal

  function Newer(events: seq<Event>, k: nat): (r: seq<Event>) {
    if events == [] then []
    else if events[0].id <= k then Newer(events[1..], k)
    else [events[0]] + Newer(events[1..], k)
  }

  /** The events beyond `k` form an unbroken chain from `k` to the snapshot's last ID. */
  ghost predicate Complete(s: Snapshot, k: nat) {
    && k <= s.lastID
    && Chained(k, Newer(s.events, k))
    && Watermark(k, Newer(s.events, k)) == s.lastID
  }

  /** What the loop over the events keeps: the tail so far is a chain, and the rest is still to come. */
  ghost predicate Tailing(s: Snapshot, k: nat, tail: seq<Event>, i: nat) {
    i <= |s.events| && Chained(k, tail) && Newer(s.events, k) == tail + Newer(s.events[i..], k)
  }

  lemma TailStarts(s: Snapshot, k: nat)
    ensures Tailing(s, k, [], 0)
  {
    assert s.events[0..] == s.events && [] + Newer(s.events, k) == Newer(s.events, k);
  }

  lemma TailSkips(s: Snapshot, k: nat, tail: seq<Event>, i: nat)
    requires Tailing(s, k, tail, i) && i < |s.events| && s.events[i].id <= k
    ensures Tailing(s, k, tail, i + 1)
  {
    assert s.events[i..][1..] == s.events[i + 1..];
  }

  lemma TailGrows(s: Snapshot, k: nat, tail: seq<Event>, i: nat)
    requires Tailing(s, k, tail, i) && i < |s.events| && s.events[i].id > k
    requires s.events[i].First() <= Watermark(k, tail) + 1 <= s.events[i].id
    ensures Tailing(s, k, tail + [s.events[i]], i + 1) && Watermark(k, tail + [s.events[i]]) == s.events[i].id
  {
    var e := s.events[i];
    assert s.events[i..][1..] == s.events[i + 1..];
    assert Newer(s.events[i..], k) == [e] + Newer(s.events[i + 1..], k);
    assert tail + ([e] + Newer(s.events[i + 1..], k)) == tail + [e] + Newer(s.events[i + 1..], k);
    ChainConcat(k, tail, [e]);
  }

  lemma TailBreaks(s: Snapshot, k: nat, tail: seq<Event>, i: nat)
    requires Tailing(s, k, tail, i) && i < |s.events| && s.events[i].id > k
    requires !(s.events[i].First() <= Watermark(k, tail) + 1 <= s.events[i].id)
    ensures !Complete(s, k)
  {
    BrokenChain(k, tail, Newer(s.events[i..], k));
  }

  lemma TailEnds(s: Snapshot, k: nat, tail: seq<Event>)
    requires Tailing(s, k, tail, |s.events|)
    ensures Newer(s.events, k) == tail
  {
    assert s.events[|s.events|..] == [] && tail + [] == tail;
  }

  /** The source's loop, on any snapshot at all, well-formed or not. */
  method TailAfter(s: Snapshot, applied: nat) returns (tail: Snapshot, complete: bool)
    ensures complete <==> Complete(s, applied)
    ensures complete ==> tail.events == Newer(s.events, applied)
    ensures tail == Snapshot(tail.events, false, SumCost(tail.events), s.cols, s.rows, s.lastID, s.cellWidth, s.cellHeight)
  {
    tail := Snapshot([], false, 0, s.cols, s.rows, s.lastID, s.cellWidth, s.cellHeight);
    if applied > s.lastID {
      return tail, false;
    }
    var expected := applied + 1;
    TailStarts(s, applied);
    for i := 0 to |s.events|
      invariant Tailing(s, applied, tail.events, i)
      invariant expected == Watermark(applied, tail.events) + 1
      invariant tail == Snapshot(tail.events, false, SumCost(tail.events), s.cols, s.rows, s.lastID, s.cellWidth, s.cellHeight)
    {
      var event := s.events[i];
      if event.id <= applied {
        TailSkips(s, applied, tail.events, i);
        continue;
      }
      if event.First() > expected || event.id < expected {
        TailBreaks(s, applied, tail.events, i);
        return tail, false;
      }
      TailGrows(s, applied, tail.events, i);
      SumCostSnoc(tail.events, event);
      tail := tail.(events := tail.events + [event], bytes := tail.bytes + event.Cost());
      expected := event.id + 1;
    }
    TailEnds(s, applied, tail.events);
    return tail, expected == s.lastID + 1;
  }

  /** A chain cannot be continued by an event that does not abut it. */
  lemma {:induction false} BrokenChain(k: nat, xs: seq<Event>, ys: seq<Event>)
    requires Chained(k, xs) && ys != []
    requires !(ys[0].First() <= Watermark(k, xs) + 1 <= ys[0].id)
    ensures !Chained(k, xs + ys)
    decreases |xs|
  {
    if xs == [] {
      assert xs + ys == ys;
    } else {
      assert (xs + ys)[1..] == xs[1..] + ys;
      BrokenChain(xs[0].id, xs[1..], ys);
    }
  }

  // ----- tails of journals -----

  ghost predicate SpansOrdered(events: seq<Event>) {
    Contiguous(events) && forall i :: 0 <= i < |events| ==> events[i].First() <= events[i].id
  }

  lemma SpansTail(events: seq<Event>)
    requires SpansOrdered(events) && events != []
    ensures SpansOrdered(events[1..])
    ensures |events| > 1 ==> events[1].First() == events[0].id + 1
  {
    var rest := events[1..];
    forall i | 0 <= i < |rest| - 1 ensures rest[i + 1].First() == rest[i].id + 1 {
      assert events[(i + 1) + 1].First() == events[i + 1].id + 1;
    }
    if |events| > 1 {
      assert events[0 + 1].First() == events[0].id + 1;
    }
  }

  lemma {:induction false} NoneNewer(events: seq<Event>, k: nat)
    requires forall i :: 0 <= i < |events| ==> events[i].id <= k
    ensures Newer(events, k) == []
  {
    if events != [] {
      NoneNewer(events[1..], k);
    }
  }

  lemma {:induction false} AllNewer(events: seq<Event>, k: nat)
    requires forall i :: 0 <= i < |events| ==> events[i].id > k
    ensures Newer(events, k) == events
  {
    if events != [] {
      AllNewer(events[1..], k);
    }
  }

  /** Contiguous spans chain from anywhere inside the first one, and lie beyond it. */
  lemma {:induction false} SpansChain(events: seq<Event>, k: nat)
    requires SpansOrdered(events) && events != []
    requires events[0].First() <= k + 1 <= events[0].id
    ensures Chained(k, events)
    ensures forall i :: 0 <= i < |events| ==> events[i].id > k
    decreases |events|
  {
    if |events| > 1 {
      var rest := events[1..];
      SpansTail(events);
      SpansChain(rest, events[0].id);
      forall i | 0 <= i < |events| ensures events[i].id > k {
        if i > 0 {
          assert events[i] == rest[i - 1];
        }
      }
    }
  }

  lemma {:induction false} CoveredTail(events: seq<Event>, k: nat)
    requires SpansOrdered(events) && events != []
    requires events[0].First() <= k + 1 <= events[|events| - 1].id
    ensures Chained(k, Newer(events, k))
    ensures Newer(events, k) != []
    ensures Watermark(k, Newer(events, k)) == events[|events| - 1].id
    decreases |events|
  {
    if events[0].id <= k {
      SpansTail(events);
      CoveredTail(events[1..], k);
    } else {
      SpansChain(events, k);
      AllNewer(events, k);
    }
  }

  /** Firsts ascend, so the first event beyond `k` cannot start before the first event of all. */
  lemma {:induction false} UncoveredTail(events: seq<Event>, k: nat)
    requires SpansOrdered(events) && events != []
    requires events[0].First() > k + 1
    ensures !Chained(k, Newer(events, k))
  {
  }

  lemma NewerStaysIn(events: seq<Event>, k: nat)
    ensures forall e :: e in Newer(events, k) ==> e in events && e.id > k
  {
  }

  /**
    Exactly when a checkpoint at `k` is usable: it is not ahead of the journal, and
    either nothing is missing or the oldest retained span reaches back to `k + 1`.
    */
  lemma TailCompleteIff(maxBytes: int, ops: seq<Op>, k: nat)
    ensures var j := Run(Empty(maxBytes), ops);
            Complete(Snap(j), k) <==>
            (k == j.nextID || (k < j.nextID && j.events != [] && j.events[0].First() <= k + 1))
  {
    RunRepresents(maxBytes, ops);
    var j, hist := Run(Empty(maxBytes), ops), History(ops);
    forall i | 0 <= i < |j.events| ensures j.events[i].First() <= j.events[i].id {
      assert Matches(hist, j.events[i]);
    }
    if k == j.nextID {
      forall i | 0 <= i < |j.events| ensures j.events[i].id <= k {
        assert Matches(hist, j.events[i]);
      }
      NoneNewer(j.events, k);
    } else if k < j.nextID && j.events != [] {
      if j.events[0].First() <= k + 1 {
        CoveredTail(j.events, k);
      } else {
        UncoveredTail(j.events, k);
      }
    }
  }

  /**
    The checkpoint law: for every run and every `k`, if the tail after `k` is
    reported complete, replaying it on the terminal after the uncoalesced history
    `1..k` gives the terminal after the uncoalesced history `1..lastID`.
    */
  lemma TailCatchesUp<S>(draw: (Terminal<S>, nat, Bytes) -> S, t0: Terminal<S>,
                         maxBytes: int, ops: seq<Op>, k: nat)
    requires Complete(Snap(Run(Empty(maxBytes), ops)), k)
    ensures k <= |History(ops)|
    ensures Replay(draw, After(draw, t0, History(ops), k), Newer(Run(Empty(maxBytes), ops).events, k))
            == After(draw, t0, History(ops), |History(ops)|)
  {
    RunRepresents(maxBytes, ops);
    var j, hist := Run(Empty(maxBytes), ops), History(ops);
    var tail := Newer(j.events, k);
    NewerStaysIn(j.events, k);
    forall e | e in tail ensures Matches(hist, e) {
      var i :| 0 <= i < |j.events| && j.events[i] == e;
    }
    ChainReplays(draw, t0, hist, k, tail);
  }
}
