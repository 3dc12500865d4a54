/**
  What a recovery bundle is good for once it is accepted, wherever it came from: its events are
  usable, and a renderer can be brought up to date from every watermark it reaches back to.
  */
module RendererAccepted {
  import opened RendererEvents
  import opened RendererJournal
  import opened RendererCheckpoint
  import opened RendererRecovery
  import opened RendererOrder

  /** Every event is an output with its own ID or a resize to a usable size. */
  lemma AcceptedEvents(s: Snapshot, i: nat)
    requires Acceptable(s) && i < |s.events|
    ensures var e := s.events[i]; !Unusable(e) && e.id < 0x8000_0000_0000_0000 && (e.kind == Resize || (e.kind == Output && e.First() == e.id))
  {
    assert WellFormedAt(s, i);
    UnusableIff(s.events[i]);
  }

  lemma {:induction false} Ascends(s: Snapshot, i: nat, j: nat)
    requires Acceptable(s) && i < j < |s.events|
    ensures s.events[i].id < s.events[j].id
    decreases j
  {
    assert WellFormedAt(s, j);
    if i < j - 1 {
      Ascends(s, i, j - 1);
    }
  }

  /** How many events a renderer at `k` has behind it. */
  lemma {:induction false} Behind(s: Snapshot, k: nat, i: nat) returns (j: nat)
    requires Acceptable(s) && i <= |s.events| && Previous(s.events, i) <= k
    ensures i <= j <= |s.events| && Previous(s.events, j) <= k && (j < |s.events| ==> s.events[j].id > k)
    ensures Newer(s.events[i..], k) == Newer(s.events[j..], k)
    decreases |s.events| - i
  {
    j := i;
    if i < |s.events| && s.events[i].id <= k {
      assert s.events[i..][1..] == s.events[i + 1..];
      j := Behind(s, k, i + 1);
    }
  }

  lemma {:induction false} AllNewer(s: Snapshot, k: nat, j: nat)
    requires Acceptable(s) && j <= |s.events| && (j < |s.events| ==> s.events[j].id > k)
    ensures Newer(s.events[j..], k) == s.events[j..]
    decreases |s.events| - j
  {
    if j < |s.events| {
      assert s.events[j..][1..] == s.events[j + 1..];
      if j + 1 < |s.events| {
        Ascends(s, j, j + 1);
      }
      AllNewer(s, k, j + 1);
    }
  }

  /** Behind any event the rest is a chain to the last ID. */
  lemma {:induction false} RestIsChained(s: Snapshot, j: nat)
    requires Acceptable(s) && 0 < j <= |s.events|
    ensures Chained(s.events[j - 1].id, s.events[j..]) && Watermark(s.events[j - 1].id, s.events[j..]) == s.lastID
    decreases |s.events| - j
  {
    if j < |s.events| {
      assert WellFormedAt(s, j);
      assert s.events[j..][1..] == s.events[j + 1..];
      RestIsChained(s, j + 1);
    }
  }

  lemma TailChains(s: Snapshot, k: nat, j: nat)
    requires Acceptable(s) && k <= s.lastID && j < |s.events| && Previous(s.events, j) <= k < s.events[j].id
    ensures Chained(k, s.events[j..]) <==> s.events[0].First() <= k + 1
    ensures Chained(k, s.events[j..]) ==> Watermark(k, s.events[j..]) == s.lastID
  {
    assert WellFormedAt(s, j) && WellFormedAt(s, 0);
    assert s.events[j..][1..] == s.events[j + 1..];
    RestIsChained(s, j + 1);
    if j > 0 {
      FirstIsLeast(s, j - 1);
    }
  }

  lemma FirstIsLeast(s: Snapshot, i: nat)
    requires Acceptable(s) && i < |s.events|
    ensures s.events[0].First() <= s.events[i].id
  {
    assert WellFormedAt(s, 0);
    if i > 0 {
      Ascends(s, 0, i);
    }
  }

  /**
    For every accepted bundle, whoever wrote it, the tail after `k` is complete if and only if `k`
    is the last ID or the oldest event reaches back to k + 1.
    */
  lemma AcceptedTailIff(s: Snapshot, k: nat)
    requires Acceptable(s) && k <= s.lastID
    ensures Complete(s, k) <==> k == s.lastID || (s.events != [] && s.events[0].First() <= k + 1)
  {
    var j := Behind(s, k, 0);
    assert s.events[0..] == s.events;
    AllNewer(s, k, j);
    if j < |s.events| {
      TailChains(s, k, j);
      assert s.events[j].id <= s.lastID by {
        assert WellFormedAt(s, j);
      }
    } else if s.events != [] {
      FirstIsLeast(s, j - 1);
    }
  }

  /** One that is not partial brings a renderer up to date from any watermark, an empty one included. */
  lemma WholeIsComplete(s: Snapshot, k: nat)
    requires Acceptable(s) && !s.partial && k <= s.lastID
    ensures Complete(s, k)
  {
    AcceptedTailIff(s, k);
    if s.events != [] {
      assert WellFormedAt(s, 0);
    }
  }
}
