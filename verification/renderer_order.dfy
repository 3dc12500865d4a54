/**
  The worker's bounded reorder buffer: journal events may arrive in any order and
  more than once, and must still be applied as one unbroken chain.
  */
module RendererOrder {
  import opened Wrappers
  import opened RendererEvents
  import opened RendererJournal
  import opened RendererRecovery

  const MAX_PENDING_EVENTS: nat := 256

  datatype Queue = Queue(applied: nat, pending: map<nat, Event>)

  ghost predicate Keyed(pending: map<nat, Event>) {
    forall id :: id in pending ==> pending[id].id == id
  }

  predicate Candidate(applied: nat, e: Event) {
    e.First() <= applied + 1 && e.id > applied
  }

  ghost predicate HasCandidate(q: Queue) {
    exists id :: id in q.pending && Candidate(q.applied, q.pending[id])
  }

  /** `id` names the applicable pending event with the smallest ID. */
  ghost predicate IsNext(q: Queue, id: nat) {
    && id in q.pending && Candidate(q.applied, q.pending[id])
    && forall other :: other in q.pending && Candidate(q.applied, q.pending[other]) ==> id <= other
  }

  lemma {:induction false} NextExists(q: Queue, id: nat)
    requires id in q.pending && Candidate(q.applied, q.pending[id])
    ensures exists least :: IsNext(q, least)
    decreases id
  {
    if other :| other in q.pending && Candidate(q.applied, q.pending[other]) && other < id {
      NextExists(q, other);
    } else {
      assert IsNext(q, id);
    }
  }

  ghost function Next(q: Queue): (id: nat)
    requires HasCandidate(q)
    ensures IsNext(q, id)
  {
    var some :| some in q.pending && Candidate(q.applied, q.pending[some]);
    NextExists(q, some);
    var least :| IsNext(q, least);
    least
  }

  function Above(pending: map<nat, Event>, applied: nat): (r: map<nat, Event>) {
    map id | id in pending && id > applied :: pending[id]
  }

  ghost function Pick(keys: set<nat>): (id: nat)
    requires keys != {}
    ensures id in keys
  {
    var id :| id in keys;
    id
  }

  ghost function PendingSum(pending: map<nat, Event>, keys: set<nat>): (n: nat)
    requires keys <= pending.Keys
  {
    if keys == {} then 0 else pending[Pick(keys)].Cost() + PendingSum(pending, keys - {Pick(keys)})
  }

  ghost function PendingBytes(pending: map<nat, Event>): (n: nat) {
    PendingSum(pending, pending.Keys)
  }

  lemma {:induction false} SumSplits(pending: map<nat, Event>, keys: set<nat>, id: nat)
    requires id in keys && keys <= pending.Keys
    ensures PendingSum(pending, keys) == pending[id].Cost() + PendingSum(pending, keys - {id})
    decreases |keys|
  {
    var p := Pick(keys);
    if p != id {
      SumSplits(pending, keys - {p}, id);
      SumSplits(pending, keys - {id}, p);
      assert keys - {p} - {id} == keys - {id} - {p};
    }
  }

  lemma {:induction false} SumLocal(a: map<nat, Event>, b: map<nat, Event>, keys: set<nat>)
    requires keys <= a.Keys && keys <= b.Keys
    requires forall id :: id in keys ==> a[id] == b[id]
    ensures PendingSum(a, keys) == PendingSum(b, keys)
    decreases |keys|
  {
    if keys != {} {
      SumLocal(a, b, keys - {Pick(keys)});
    }
  }

  /** Apply what has become applicable, smallest ID first, until a gap remains. */
  ghost function Drained(q: Queue): (r: (Queue, seq<Event>))
    requires Keyed(q.pending)
    decreases q.pending.Keys
  {
    if HasCandidate(q) then
      var id := Next(q);
      var (rest, es) := Drained(Queue(id, Above(q.pending, id)));
      (rest, [q.pending[id]] + es)
    else (q, [])
  }

  /** What is left to drain completes what has been drained. */
  ghost predicate Draining(begun: Queue, q: Queue, run: seq<Event>) {
    Keyed(begun.pending) && Keyed(q.pending) && Drained(begun) == (Drained(q).0, run + Drained(q).1)
  }

  lemma AboveKeyed(pending: map<nat, Event>, applied: nat)
    requires Keyed(pending)
    ensures Keyed(Above(pending, applied))
  {
  }

  lemma DrainTakes(begun: Queue, q: Queue, run: seq<Event>, next: Event)
    requires Draining(begun, q, run) && HasCandidate(q) && IsNext(q, next.id) && next == q.pending[next.id]
    ensures Draining(begun, Queue(next.id, Above(q.pending, next.id)), run + [next])
  {
    AboveKeyed(q.pending, next.id);
    var rest := Drained(Queue(next.id, Above(q.pending, next.id)));
    assert Next(q) == next.id;
    assert Drained(q) == (rest.0, [next] + rest.1);
    assert run + ([next] + rest.1) == run + [next] + rest.1;
  }

  lemma DrainEnds(begun: Queue, q: Queue, run: seq<Event>)
    requires Draining(begun, q, run) && !HasCandidate(q)
    ensures Drained(begun) == (q, run)
  {
    assert run + [] == run;
  }

  predicate Malformed(e: Event) {
    || e.id == 0 || e.id >= INPUT_EVENT_BIT || e.kind == Unknown
    || e.First() > e.id || (e.kind != Resize && e.First() != e.id)
  }

  predicate BadGeometry(e: Event) {
    e.kind == Resize && !(ValidGeometry(e.cols, e.rows) && ValidPixels(e.cellWidth, e.cellHeight))
  }

  ghost predicate Overflows(q: Queue, e: Event) {
    |q.pending| >= MAX_PENDING_EVENTS || e.Cost() > DEFAULT_JOURNAL_BYTES - PendingBytes(q.pending)
  }

  datatype Outcome = Outcome(ok: bool, queue: Queue, run: seq<Event>)

  ghost function Pushed(q: Queue, e: Event): (r: Outcome)
    requires Keyed(q.pending)
  {
    if Malformed(e) then Outcome(false, q, [])
    else if e.id <= q.applied then Outcome(true, q, [])
    else if BadGeometry(e) then Outcome(false, q, [])
    else if q.pending == map[] && e.First() <= q.applied + 1 then Outcome(true, q.(applied := e.id), [e])
    else if e.id in q.pending then Outcome(true, q, [])
    else if Overflows(q, e) then Outcome(false, q, [])
    else
      var (rest, es) := Drained(q.(pending := q.pending[e.id := e]));
      Outcome(true, rest, es)
  }

  /** A resize to a size no terminal is given. */
  predicate Unusable(e: Event) {
    && e.kind == Resize
    && !(&& 1 <= e.cols <= 65535 && 1 <= e.rows <= 65535 && e.cols * e.rows <= 1048576
         && 0 <= e.cellWidth <= 4096 && 0 <= e.cellHeight <= 4096 && (e.cellWidth == 0 <==> e.cellHeight == 0))
  }

  lemma UnusableIff(e: Event)
    ensures Unusable(e) <==> BadGeometry(e)
  {
    GeometryIff(e.cols, e.rows);
    PixelsIff(e.cellWidth, e.cellHeight);
  }

  /**
    For every buffer and event: it is refused if and only if its ID is out of range, its type or
    span makes no sense, or, being new, it asks for an unusable size or has to wait in a buffer
    that holds 256 events or has not its bytes left of one mebibyte.
    */
  lemma RefusedIff(q: Queue, e: Event)
    requires Keyed(q.pending)
    ensures !Pushed(q, e).ok <==>
            || e.id == 0 || e.id >= 0x8000_0000_0000_0000 || e.kind == Unknown
            || e.First() > e.id || (e.kind == Output && e.First() < e.id)
            || (e.id > q.applied &&
                (Unusable(e) || (e.id !in q.pending && (q.pending != map[] || e.First() > q.applied + 1) &&
                                 (|q.pending| >= 256 || PendingBytes(q.pending) + e.Cost() > 1048576))))
  {
    UnusableIff(e);
  }

  /** Zero stands for the unset time. */
  class Order {
    var applied: nat
    var pending: map<nat, Event>
    var bytes: int
    var gapSince: nat

    function Value(): (q: Queue)
      reads this
    {
      Queue(applied, pending)
    }

    ghost predicate Valid()
      reads this
    {
      && Keyed(pending)
      && (forall id :: id in pending ==> id > applied)
      && bytes == PendingBytes(pending) <= DEFAULT_JOURNAL_BYTES
      && |pending| <= MAX_PENDING_EVENTS
      && (gapSince == 0 <==> pending == map[])
    }

    constructor ()
      ensures Valid() && Value() == Queue(0, map[]) && gapSince == 0
    {
      applied, pending, bytes, gapSince := 0, map[], 0, 0;
    }

    method FindNext() returns (found: bool, next: Event)
      requires Keyed(pending)
      ensures found <==> HasCandidate(Value())
      ensures found ==> next.id in pending && next == pending[next.id] && IsNext(Value(), next.id)
    {
      found := false;
      next := Event(0, 0, Unknown, [], 0, 0, 0, 0);
      var left := pending.Keys;
      while left != {}
        invariant left <= pending.Keys
        invariant found ==> next.id in pending && next == pending[next.id] && Candidate(applied, next)
        invariant forall id :: id in pending && id !in left && Candidate(applied, pending[id]) ==> found && next.id <= id
        decreases left
      {
        var id :| id in left;
        left := left - {id};
        var candidate := pending[id];
        if candidate.First() <= applied + 1 && candidate.id > applied && (!found || candidate.id < next.id) {
          found, next := true, candidate;
        }
      }
    }

    method DropCovered()
      requires bytes == PendingBytes(pending)
      modifies this`pending, this`bytes
      ensures pending == Above(old(pending), applied)
      ensures bytes == PendingBytes(pending)
    {
      var left := pending.Keys;
      while left != {}
        invariant left <= pending.Keys <= old(pending).Keys
        invariant forall id :: id in pending ==> pending[id] == old(pending)[id]
        invariant forall id :: id in old(pending) && id !in left ==> (id in pending <==> id > applied)
        invariant forall id :: id in old(pending) && id in left ==> id in pending
        invariant bytes == PendingBytes(pending)
        decreases left
      {
        var id :| id in left;
        left := left - {id};
        if id <= applied {
          SumSplits(pending, pending.Keys, id);
          SumLocal(pending, pending - {id}, pending.Keys - {id});
          assert (pending - {id}).Keys == pending.Keys - {id};
          bytes := bytes - pending[id].Cost();
          pending := pending - {id};
        }
      }
    }

    /** Applies pending events, smallest applicable ID first, until a gap remains. */
    method Drain() returns (run: seq<Event>)
      requires Keyed(pending) && (forall id :: id in pending ==> id > applied)
      requires bytes == PendingBytes(pending)
      modifies this`applied, this`pending, this`bytes
      ensures (Value(), run) == old(Drained(Value()))
      ensures Keyed(pending) && (forall id :: id in pending ==> id > applied)
      ensures bytes == PendingBytes(pending) <= old(bytes)
      ensures |pending| <= old(|pending|)
    {
      run := [];
      ghost var begun := Value();
      assert [] + Drained(begun).1 == Drained(begun).1;
      while true
        invariant Keyed(pending)
        invariant forall id :: id in pending ==> id > applied
        invariant bytes == PendingBytes(pending) <= old(bytes)
        invariant |pending| <= old(|pending|)
        invariant Draining(begun, Value(), run)
        decreases pending.Keys
      {
        var found, next := FindNext();
        if !found {
          break;
        }
        ghost var before := Value();
        DrainTakes(begun, before, run, next);
        ShrinkPending(pending, next.id);
        run := run + [next];
        applied := next.id;
        DropCovered();
      }
      DrainEnds(begun, Value(), run);
    }

    /** `run` lists the events handed to the apply callback, in order. */
    method Push(event: Event, now: nat) returns (ok: bool, run: seq<Event>)
      requires Valid() && now > 0
      modifies this
      ensures Valid()
      ensures Outcome(ok, Value(), run) == old(Pushed(Value(), event))
      ensures gapSince == if pending == map[] then 0 else if old(pending == map[]) then now else old(gapSince)
    {
      run := [];
      if event.id == 0 || event.id >= INPUT_EVENT_BIT || (event.kind != Output && event.kind != Resize) {
        return false, [];
      }
      var first := event.First();
      if first > event.id || (event.kind != Resize && first != event.id) {
        return false, [];
      }
      if event.id <= applied {
        return true, [];
      }
      if event.kind == Resize && (!ValidGeometry(event.cols, event.rows) || !ValidPixels(event.cellWidth, event.cellHeight)) {
        return false, [];
      }
      if pending == map[] && first <= applied + 1 {
        applied := event.id;
        return true, [event];
      }
      if event.id in pending {
        return true, [];
      }
      var cost := event.Cost();
      if |pending| >= MAX_PENDING_EVENTS || cost > DEFAULT_JOURNAL_BYTES - bytes {
        return false, [];
      }
      AddPending(pending, event);
      pending := pending[event.id := event];
      bytes := bytes + cost;
      run := Drain();
      if pending != map[] && gapSince == 0 {
        gapSince := now;
      } else if pending == map[] {
        gapSince := 0;
      }
      ok := true;
    }
  }

  lemma AddPending(pending: map<nat, Event>, e: Event)
    requires e.id !in pending
    ensures PendingBytes(pending[e.id := e]) == PendingBytes(pending) + e.Cost()
    ensures |pending[e.id := e]| == |pending| + 1
  {
    var more := pending[e.id := e];
    SumSplits(more, more.Keys, e.id);
    assert more.Keys - {e.id} == pending.Keys;
    SumLocal(more, pending, pending.Keys);
  }

  lemma {:induction false} SubsetSum(pending: map<nat, Event>, small: set<nat>, large: set<nat>)
    requires small <= large <= pending.Keys
    ensures PendingSum(pending, small) <= PendingSum(pending, large)
    decreases |small|
  {
    if small != {} {
      var x :| x in small;
      SumSplits(pending, small, x);
      SumSplits(pending, large, x);
      SubsetSum(pending, small - {x}, large - {x});
    }
  }

  /** Dropping covered events never raises the count or the bytes. */
  lemma ShrinkPending(pending: map<nat, Event>, applied: nat)
    ensures |Above(pending, applied)| <= |pending|
    ensures PendingBytes(Above(pending, applied)) <= PendingBytes(pending)
  {
    var rest := Above(pending, applied);
    SubsetSize(rest.Keys, pending.Keys);
    assert |rest| == |rest.Keys| && |pending| == |pending.Keys|;
    SumLocal(rest, pending, rest.Keys);
    SubsetSum(pending, rest.Keys, pending.Keys);
  }

  // ----- arrivals -----

  /** What one journal issued: event `i` has ID `i + 1` and tells the truth about `hist`. */
  ghost predicate IssuedBy(issued: seq<Event>, hist: seq<Command>) {
    && |issued| == |hist| < INPUT_EVENT_BIT
    && forall i :: 0 <= i < |issued| ==>
                     issued[i].id == i + 1 && Matches(hist, issued[i]) && !BadGeometry(issued[i])
  }

  /** What a push may rely on without knowing the history. */
  ghost predicate Deliverable(issued: seq<Event>) {
    forall i :: 0 <= i < |issued| ==>
                  issued[i].id == i + 1 && !Malformed(issued[i]) && !BadGeometry(issued[i])
  }

  lemma IssuedDeliverable(issued: seq<Event>, hist: seq<Command>)
    requires IssuedBy(issued, hist)
    ensures Deliverable(issued)
  {
    forall i | 0 <= i < |issued|
      ensures issued[i].id == i + 1 && !Malformed(issued[i]) && !BadGeometry(issued[i])
    {
      assert Matches(hist, issued[i]);
    }
  }

  ghost predicate Arrivals(issued: seq<Event>, ids: seq<nat>) {
    forall i :: 0 <= i < |ids| ==> 1 <= ids[i] <= |issued|
  }

  /** Push every arrival in turn, stopping (as the worker does) at the first error. */
  ghost function Delivered(start: nat, issued: seq<Event>, ids: seq<nat>): (r: Outcome)
    requires Arrivals(issued, ids)
    requires forall i :: 0 <= i < |issued| ==> issued[i].id == i + 1
    ensures Keyed(r.queue.pending)
  {
    if ids == [] then Outcome(true, Queue(start, map[]), [])
    else
      var n := |ids| - 1;
      var r := Delivered(start, issued, ids[..n]);
      if !r.ok then r
      else
        var p := Pushed(r.queue, issued[ids[n] - 1]);
        PushedKeyed(r.queue, issued[ids[n] - 1]);
        Outcome(p.ok, p.queue, r.run + p.run)
  }

  lemma {:induction false} DrainedKeyed(q: Queue)
    requires Keyed(q.pending)
    ensures Keyed(Drained(q).0.pending)
    decreases q.pending.Keys
  {
    if HasCandidate(q) {
      DrainedKeyed(Queue(Next(q), Above(q.pending, Next(q))));
    }
  }

  lemma PushedKeyed(q: Queue, e: Event)
    requires Keyed(q.pending)
    ensures Keyed(Pushed(q, e).queue.pending)
  {
    if e.id !in q.pending {
      DrainedKeyed(q.(pending := q.pending[e.id := e]));
    }
  }

  function IdsOf(ids: seq<nat>): (s: set<nat>) {
    set i | 0 <= i < |ids| :: ids[i]
  }

  /** The buffer holds exactly the delivered events beyond the watermark. */
  ghost predicate Holds(q: Queue, issued: seq<Event>, delivered: set<nat>) {
    && (forall id :: id in q.pending <==> id in delivered && id > q.applied)
    && (forall id :: id in q.pending ==> 1 <= id <= |issued| && q.pending[id] == issued[id - 1])
  }

  ghost predicate RunFrom(start: nat, run: seq<Event>, issued: seq<Event>, delivered: set<nat>) {
    && Chained(start, run)
    && forall e :: e in run ==> 1 <= e.id <= |issued| && e == issued[e.id - 1] && e.id in delivered
  }

  lemma HoldsAbove(q: Queue, issued: seq<Event>, delivered: set<nat>, id: nat)
    requires Holds(q, issued, delivered) && id >= q.applied
    ensures Holds(Queue(id, Above(q.pending, id)), issued, delivered)
  {
  }

  lemma RunPrepends(k: nat, e: Event, run: seq<Event>, issued: seq<Event>, delivered: set<nat>)
    requires Candidate(k, e) && 1 <= e.id <= |issued| && e == issued[e.id - 1] && e.id in delivered
    requires RunFrom(e.id, run, issued, delivered)
    ensures RunFrom(k, [e] + run, issued, delivered)
    ensures Watermark(k, [e] + run) == Watermark(e.id, run)
  {
    assert ([e] + run)[1..] == run;
  }

  /** The post-state of a push: nothing applicable is left, and the run leads to the watermark. */
  ghost predicate Follows(start: nat, r: Outcome, issued: seq<Event>, delivered: set<nat>) {
    && Holds(r.queue, issued, delivered)
    && !HasCandidate(r.queue)
    && RunFrom(start, r.run, issued, delivered)
    && r.queue.applied == Watermark(start, r.run)
  }

  lemma {:induction false} DrainFollows(q: Queue, issued: seq<Event>, delivered: set<nat>)
    requires Keyed(q.pending) && Holds(q, issued, delivered)
    ensures Follows(q.applied, Outcome(true, Drained(q).0, Drained(q).1), issued, delivered)
    decreases q.pending.Keys
  {
    if HasCandidate(q) {
      var id := Next(q);
      var rest := Queue(id, Above(q.pending, id));
      HoldsAbove(q, issued, delivered, id);
      DrainFollows(rest, issued, delivered);
      RunPrepends(q.applied, q.pending[id], Drained(rest).1, issued, delivered);
    }
  }

  lemma AlreadyHeld(q: Queue, issued: seq<Event>, delivered: set<nat>, id: nat)
    requires Holds(q, issued, delivered) && !HasCandidate(q)
    requires id <= q.applied || id in q.pending
    ensures Follows(q.applied, Outcome(true, q, []), issued, delivered + {id})
  {
  }

  lemma HeldAtOnce(q: Queue, issued: seq<Event>, delivered: set<nat>, id: nat)
    requires Holds(q, issued, delivered) && q.pending == map[]
    requires 1 <= id <= |issued| && issued[id - 1].id == id && Candidate(q.applied, issued[id - 1])
    ensures Follows(q.applied, Outcome(true, q.(applied := id), [issued[id - 1]]), issued, delivered + {id})
  {
    var e := issued[id - 1];
    assert RunFrom(e.id, [], issued, delivered + {id});
    RunPrepends(q.applied, e, [], issued, delivered + {id});
    assert [e] + [] == [e];
  }

  lemma PushFollows(q: Queue, issued: seq<Event>, delivered: set<nat>, id: nat)
    requires Deliverable(issued) && 1 <= id <= |issued|
    requires Keyed(q.pending) && Holds(q, issued, delivered) && !HasCandidate(q)
    requires Pushed(q, issued[id - 1]).ok
    ensures Follows(q.applied, Pushed(q, issued[id - 1]), issued, delivered + {id})
  {
    var e := issued[id - 1];
    if e.id <= q.applied || e.id in q.pending {
      AlreadyHeld(q, issued, delivered, id);
    } else if q.pending == map[] && e.First() <= q.applied + 1 {
      HeldAtOnce(q, issued, delivered, id);
    } else {
      HeldBack(q, issued, delivered, id);
      PushedBuffers(q, e);
    }
  }

  lemma PushedBuffers(q: Queue, e: Event)
    requires Keyed(q.pending) && Pushed(q, e).ok && !(e.id <= q.applied || e.id in q.pending)
    requires !(q.pending == map[] && e.First() <= q.applied + 1)
    ensures var more := q.(pending := q.pending[e.id := e]);
            Keyed(more.pending) && Pushed(q, e) == Outcome(true, Drained(more).0, Drained(more).1)
  {
  }

  lemma HeldBack(q: Queue, issued: seq<Event>, delivered: set<nat>, id: nat)
    requires 1 <= id <= |issued| && issued[id - 1].id == id && id > q.applied
    requires Keyed(q.pending) && Holds(q, issued, delivered)
    ensures var more := q.(pending := q.pending[id := issued[id - 1]]);
            Keyed(more.pending) && Follows(q.applied, Outcome(true, Drained(more).0, Drained(more).1), issued, delivered + {id})
  {
    var more := q.(pending := q.pending[id := issued[id - 1]]);
    assert Holds(more, issued, delivered + {id});
    DrainFollows(more, issued, delivered + {id});
  }

  lemma IdsSnoc(ids: seq<nat>)
    requires ids != []
    ensures IdsOf(ids) == IdsOf(ids[..|ids| - 1]) + {ids[|ids| - 1]}
  {
    var n := |ids| - 1;
    assert ids[..n] + [ids[n]] == ids;
  }

  /** Everything the buffer guarantees after any error-free sequence of arrivals. */
  lemma {:induction false} DeliveryFollows(start: nat, issued: seq<Event>, ids: seq<nat>)
    requires Deliverable(issued) && Arrivals(issued, ids)
    requires Delivered(start, issued, ids).ok
    ensures Follows(start, Delivered(start, issued, ids), issued, IdsOf(ids))
    ensures Delivered(start, issued, ids).queue.applied >= start
    decreases |ids|
  {
    if ids != [] {
      var n := |ids| - 1;
      var before := ids[..n];
      var r := Delivered(start, issued, before);
      DeliveryFollows(start, issued, before);
      DeliveryStep(start, r, issued, IdsOf(before), ids[n]);
      IdsSnoc(ids);
    }
  }

  lemma DeliveryStep(start: nat, r: Outcome, issued: seq<Event>, delivered: set<nat>, id: nat)
    requires Deliverable(issued) && 1 <= id <= |issued|
    requires Keyed(r.queue.pending) && Follows(start, r, issued, delivered)
    requires Pushed(r.queue, issued[id - 1]).ok
    ensures var p := Pushed(r.queue, issued[id - 1]);
            && Follows(start, Outcome(p.ok, p.queue, r.run + p.run), issued, delivered + {id})
            && p.queue.applied >= start
  {
    PushFollows(r.queue, issued, delivered, id);
    FollowsConcat(start, r, Pushed(r.queue, issued[id - 1]), issued, delivered, id);
  }

  lemma FollowsConcat(k: nat, r: Outcome, p: Outcome, issued: seq<Event>, delivered: set<nat>, id: nat)
    requires Follows(k, r, issued, delivered) && Follows(r.queue.applied, p, issued, delivered + {id})
    ensures Follows(k, Outcome(p.ok, p.queue, r.run + p.run), issued, delivered + {id})
    ensures p.queue.applied >= k
  {
    ChainConcat(k, r.run, p.run);
    ChainAscends(k, r.run + p.run);
  }

  /** A chain's IDs strictly increase. */
  lemma {:induction false} ChainAscends(k: nat, run: seq<Event>)
    requires Chained(k, run)
    ensures forall i :: 0 <= i < |run| ==> run[i].id > k
    ensures forall i, j :: 0 <= i < j < |run| ==> run[i].id < run[j].id
    decreases |run|
  {
    if run != [] {
      ChainAscends(run[0].id, run[1..]);
    }
  }

  /** A chain of delivered events cannot pass a mark beyond which nothing delivered applies. */
  lemma {:induction false} ChainStops(k: nat, run: seq<Event>, issued: seq<Event>, delivered: set<nat>, mark: nat)
    requires k <= mark && RunFrom(k, run, issued, delivered)
    requires forall id :: id in delivered && 1 <= id <= |issued| ==> !Candidate(mark, issued[id - 1])
    ensures Watermark(k, run) <= mark
    decreases |run|
  {
    if run != [] {
      assert run[0] in run;
      ChainStops(run[0].id, run[1..], issued, delivered, mark);
    }
  }

  lemma NothingApplies(q: Queue, issued: seq<Event>, delivered: set<nat>)
    requires Holds(q, issued, delivered) && !HasCandidate(q)
    requires forall i :: 0 <= i < |issued| ==> issued[i].id == i + 1
    ensures forall id :: id in delivered && 1 <= id <= |issued| ==> !Candidate(q.applied, issued[id - 1])
  {
    forall id | id in delivered && 1 <= id <= |issued| ensures !Candidate(q.applied, issued[id - 1]) {
      if id > q.applied {
        assert id in q.pending;
      }
    }
  }

  /**
    The watermark and the buffer depend only on which events have been delivered,
    not on their order or multiplicity.
    */
  lemma OrderIsIrrelevant(start: nat, issued: seq<Event>, hist: seq<Command>, xs: seq<nat>, ys: seq<nat>)
    requires IssuedBy(issued, hist) && Arrivals(issued, xs) && Arrivals(issued, ys)
    requires IdsOf(xs) == IdsOf(ys)
    requires Delivered(start, issued, xs).ok && Delivered(start, issued, ys).ok
    ensures Delivered(start, issued, xs).queue == Delivered(start, issued, ys).queue
  {
    IssuedDeliverable(issued, hist);
    DeliveryFollows(start, issued, xs);
    DeliveryFollows(start, issued, ys);
    SetDecides(start, Delivered(start, issued, xs), Delivered(start, issued, ys), issued, IdsOf(xs));
  }

  lemma SetDecides(start: nat, a: Outcome, b: Outcome, issued: seq<Event>, delivered: set<nat>)
    requires forall i :: 0 <= i < |issued| ==> issued[i].id == i + 1
    requires Follows(start, a, issued, delivered) && Follows(start, b, issued, delivered)
    requires a.queue.applied >= start && b.queue.applied >= start
    ensures a.queue == b.queue
  {
    NothingApplies(a.queue, issued, delivered);
    NothingApplies(b.queue, issued, delivered);
    ChainStops(start, a.run, issued, delivered, b.queue.applied);
    ChainStops(start, b.run, issued, delivered, a.queue.applied);
    SameBuffer(a.queue, b.queue, issued, delivered);
  }

  lemma SameBuffer(a: Queue, b: Queue, issued: seq<Event>, delivered: set<nat>)
    requires a.applied == b.applied && Holds(a, issued, delivered) && Holds(b, issued, delivered)
    ensures a == b
  {
    assert a.pending.Keys == b.pending.Keys;
    assert a.pending == b.pending;
  }

  /** A quiescent buffer that has not caught up is missing the very next event. */
  lemma NextIsMissing(q: Queue, issued: seq<Event>, hist: seq<Command>, delivered: set<nat>)
    requires IssuedBy(issued, hist) && Holds(q, issued, delivered) && !HasCandidate(q)
    requires q.applied < |hist|
    ensures q.applied + 1 !in delivered
  {
    var id := q.applied + 1;
    assert Matches(hist, issued[id - 1]);
    if id in delivered {
      assert id in q.pending;
      assert Candidate(q.applied, q.pending[id]);
      assert false;
    }
  }

  lemma {:induction false} ChainMeets(k: nat, run: seq<Event>, issued: seq<Event>, hist: seq<Command>, id: nat)
    requires IssuedBy(issued, hist) && Chained(k, run)
    requires forall e :: e in run ==> 1 <= e.id <= |issued| && e == issued[e.id - 1]
    requires k < id <= Watermark(k, run) && 1 <= id <= |issued| && issued[id - 1].kind == Output
    ensures issued[id - 1] in run
    decreases |run|
  {
    assert Matches(hist, issued[id - 1]);
    if run != [] {
      var e := run[0];
      assert e in run;
      assert Matches(hist, issued[e.id - 1]);
      if id <= e.id {
        assert hist[id - 1].Emit?;
      } else {
        ChainMeets(e.id, run[1..], issued, hist, id);
      }
    }
  }

  /**
    At every moment the applied IDs strictly increase, every output up to the
    watermark has been applied, and the worker's terminal is the live terminal at
    the watermark.
    */
  lemma WorkerFollowsJournal<S>(draw: (Terminal<S>, nat, Bytes) -> S, t0: Terminal<S>, start: nat,
                                issued: seq<Event>, hist: seq<Command>, ids: seq<nat>)
    requires IssuedBy(issued, hist) && Arrivals(issued, ids) && start <= |hist|
    requires Delivered(start, issued, ids).ok
    ensures var r := Delivered(start, issued, ids);
            && start <= r.queue.applied <= |hist|
            && (forall i, j :: 0 <= i < j < |r.run| ==> r.run[i].id < r.run[j].id)
            && (forall e :: e in issued && start < e.id <= r.queue.applied && e.kind == Output ==> e in r.run)
            && Replay(draw, After(draw, t0, hist, start), r.run) == After(draw, t0, hist, r.queue.applied)
  {
    IssuedDeliverable(issued, hist);
    DeliveryFollows(start, issued, ids);
    FollowerIsLive(draw, t0, start, issued, hist, Delivered(start, issued, ids), IdsOf(ids));
  }

  lemma FollowerIsLive<S>(draw: (Terminal<S>, nat, Bytes) -> S, t0: Terminal<S>, start: nat,
                          issued: seq<Event>, hist: seq<Command>, r: Outcome, delivered: set<nat>)
    requires IssuedBy(issued, hist) && start <= |hist| && Follows(start, r, issued, delivered)
    ensures && start <= r.queue.applied <= |hist|
            && (forall i, j :: 0 <= i < j < |r.run| ==> r.run[i].id < r.run[j].id)
            && (forall e :: e in issued && start < e.id <= r.queue.applied && e.kind == Output ==> e in r.run)
            && Replay(draw, After(draw, t0, hist, start), r.run) == After(draw, t0, hist, r.queue.applied)
  {
    ChainAscends(start, r.run);
    forall e | e in r.run ensures Matches(hist, e) {
      assert Matches(hist, issued[e.id - 1]);
    }
    ChainReplays(draw, t0, hist, start, r.run);
    forall e | e in issued && start < e.id <= r.queue.applied && e.kind == Output ensures e in r.run {
      ChainMeets(start, r.run, issued, hist, e.id);
    }
  }

  /** Once everything has arrived nothing is pending and the worker has caught up. */
  lemma AllArrived<S>(draw: (Terminal<S>, nat, Bytes) -> S, t0: Terminal<S>, start: nat,
                      issued: seq<Event>, hist: seq<Command>, ids: seq<nat>)
    requires IssuedBy(issued, hist) && Arrivals(issued, ids) && start <= |hist|
    requires Delivered(start, issued, ids).ok
    requires forall id :: start < id <= |hist| ==> id in IdsOf(ids)
    ensures var r := Delivered(start, issued, ids);
            && r.queue == Queue(|hist|, map[])
            && Replay(draw, After(draw, t0, hist, start), r.run) == After(draw, t0, hist, |hist|)
  {
    WorkerFollowsJournal(draw, t0, start, issued, hist, ids);
    IssuedDeliverable(issued, hist);
    DeliveryFollows(start, issued, ids);
    var q := Delivered(start, issued, ids).queue;
    if q.applied < |hist| {
      NextIsMissing(q, issued, hist, IdsOf(ids));
      assert false;
    }
    assert q.pending == map[];
  }

  // ----- when the buffer cannot overflow -----

  function EventsAt(issued: seq<Event>, ids: set<nat>): (m: map<nat, Event>)
    requires forall id :: id in ids ==> 1 <= id <= |issued|
  {
    map id | id in ids :: issued[id - 1]
  }

  lemma NoOverflow(pending: map<nat, Event>, events: map<nat, Event>, e: Event)
    requires e.id !in pending && e.id in events && events[e.id] == e
    requires forall id :: id in pending ==> id in events && pending[id] == events[id]
    requires |events.Keys| <= MAX_PENDING_EVENTS && PendingBytes(events) <= DEFAULT_JOURNAL_BYTES
    ensures |pending| < MAX_PENDING_EVENTS
    ensures e.Cost() <= DEFAULT_JOURNAL_BYTES - PendingBytes(pending)
  {
    var more := pending[e.id := e];
    AddPending(pending, e);
    SubsetSize(more.Keys, events.Keys);
    assert |more| == |more.Keys|;
    SumLocal(more, events, more.Keys);
    SubsetSum(events, more.Keys, events.Keys);
  }

  lemma PushFits(q: Queue, issued: seq<Event>, delivered: set<nat>, all: set<nat>, id: nat)
    requires Deliverable(issued) && (forall x :: x in all ==> 1 <= x <= |issued|)
    requires delivered <= all && id in all
    requires Keyed(q.pending) && Holds(q, issued, delivered)
    requires |all| <= MAX_PENDING_EVENTS && PendingBytes(EventsAt(issued, all)) <= DEFAULT_JOURNAL_BYTES
    ensures Pushed(q, issued[id - 1]).ok
  {
    if id !in q.pending {
      var events := EventsAt(issued, all);
      assert events.Keys == all;
      NoOverflow(q.pending, events, issued[id - 1]);
    }
  }

  /**
    No arrival order overflows the buffer while the distinct events delivered are
    at most 256 and their cost is within one journal budget.
    */
  lemma {:induction false} DeliveryFits(start: nat, issued: seq<Event>, ids: seq<nat>, all: set<nat>)
    requires Deliverable(issued) && Arrivals(issued, ids)
    requires IdsOf(ids) <= all && (forall x :: x in all ==> 1 <= x <= |issued|)
    requires |all| <= 256 && PendingBytes(EventsAt(issued, all)) <= 1048576
    ensures Delivered(start, issued, ids).ok
    decreases |ids|
  {
    if ids != [] {
      IdsSnoc(ids);
      DeliveryFits(start, issued, ids[..|ids| - 1], all);
      LastFits(start, issued, ids, all);
    }
  }

  lemma LastFits(start: nat, issued: seq<Event>, ids: seq<nat>, all: set<nat>)
    requires Deliverable(issued) && Arrivals(issued, ids) && ids != [] && Delivered(start, issued, ids[..|ids| - 1]).ok
    requires IdsOf(ids) <= all && (forall x :: x in all ==> 1 <= x <= |issued|)
    requires |all| <= MAX_PENDING_EVENTS && PendingBytes(EventsAt(issued, all)) <= DEFAULT_JOURNAL_BYTES
    ensures Delivered(start, issued, ids).ok
  {
    var q := BeforeLast(start, issued, ids);
    IdsSnoc(ids);
    PushFits(q, issued, IdsOf(ids[..|ids| - 1]), all, ids[|ids| - 1]);
  }

  /** The buffer the last arrival is pushed into. */
  lemma BeforeLast(start: nat, issued: seq<Event>, ids: seq<nat>) returns (q: Queue)
    requires Deliverable(issued) && Arrivals(issued, ids) && ids != [] && Delivered(start, issued, ids[..|ids| - 1]).ok
    ensures Keyed(q.pending) && Holds(q, issued, IdsOf(ids[..|ids| - 1]))
    ensures Delivered(start, issued, ids).ok == Pushed(q, issued[ids[|ids| - 1] - 1]).ok
  {
    DeliveryFollows(start, issued, ids[..|ids| - 1]);
    q := Delivered(start, issued, ids[..|ids| - 1]).queue;
  }

  // ----- fed by a journal -----

  /** What a journal run with valid geometries issues is what the buffer expects. */
  lemma JournalIssues(maxBytes: int, ops: seq<Op>)
    requires forall op :: op in ops ==> ValidOp(op)
    requires |History(ops)| < INPUT_EVENT_BIT
    ensures IssuedBy(Issued(Empty(maxBytes), ops), History(ops))
  {
    IssuedMatch(maxBytes, ops);
    HistoryValid(ops);
    var issued, hist := Issued(Empty(maxBytes), ops), History(ops);
    forall i | 0 <= i < |issued| ensures !BadGeometry(issued[i]) {
      assert Matches(hist, issued[i]);
      if issued[i].kind == Resize {
        StickyValid(hist, i + 1);
      }
    }
  }

  /** What one journal run sends to its worker: one event a command, numbered in order. */
  ghost function Sent(maxBytes: int, ops: seq<Op>): (es: seq<Event>)
    ensures |es| == |History(ops)| && forall i :: 0 <= i < |es| ==> es[i].id == i + 1
  {
    IssuedMatch(maxBytes, ops);
    Issued(Empty(maxBytes), ops)
  }

  /**
    End to end: whatever one journal run issued, in whatever order and however
    often it arrives, a worker that has received all of it holds the live terminal.
    */
  lemma WorkerConverges<S>(draw: (Terminal<S>, nat, Bytes) -> S, t0: Terminal<S>,
                           maxBytes: int, ops: seq<Op>, start: nat, ids: seq<nat>)
    requires forall op :: op in ops ==> ValidOp(op)
    requires start <= |History(ops)| < INPUT_EVENT_BIT
    requires Arrivals(Sent(maxBytes, ops), ids)
    requires Delivered(start, Sent(maxBytes, ops), ids).ok
    requires forall id :: start < id <= |History(ops)| ==> id in IdsOf(ids)
    ensures var r := Delivered(start, Sent(maxBytes, ops), ids);
            && r.queue == Queue(|History(ops)|, map[])
            && Replay(draw, After(draw, t0, History(ops), start), r.run)
               == After(draw, t0, History(ops), |History(ops)|)
  {
    JournalIssues(maxBytes, ops);
    AllArrived(draw, t0, start, Sent(maxBytes, ops), History(ops), ids);
  }
}
