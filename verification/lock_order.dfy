/**
  Lock sets under a metadata home: which files a request names, in which order they are
  taken, and when any number of processes taking them can deadlock.
  */
module LockOrder {
  import opened Wrappers

  /** A lock file: a global domain or one node's. */
  datatype Lock = Domain(name: string) | NodeLock(name: string)

  // ----- names -----

  predicate Less(a: string, b: string) {
    b != [] && (a == [] || a[0] < b[0] || (a[0] == b[0] && Less(a[1..], b[1..])))
  }

  lemma {:induction false} LessTrans(a: string, b: string, c: string)
    requires Less(a, b) && Less(b, c)
    ensures Less(a, c)
  {
    if a != [] && a[0] == b[0] && b[0] == c[0] {
      LessTrans(a[1..], b[1..], c[1..]);
    }
  }

  lemma {:induction false} LessTotal(a: string, b: string)
    ensures Less(a, b) || a == b || Less(b, a)
    ensures !(Less(a, b) && Less(b, a)) && !Less(a, a)
  {
    if a != [] {
      LessIrreflexive(a);
      if b != [] && a[0] == b[0] {
        LessTotal(a[1..], b[1..]);
        assert a == [a[0]] + a[1..] && b == [b[0]] + b[1..];
      }
    }
  }

  lemma {:induction false} LessIrreflexive(a: string)
    ensures !Less(a, a)
  {
    if a != [] {
      LessIrreflexive(a[1..]);
    }
  }

  /** White space as Unicode defines it. */
  predicate Space(c: char) {
    || c == ' ' || ('\t' <= c <= '\r') || c == '\U{85}' || c == '\U{A0}' || c == '\U{1680}' || ('\U{2000}' <= c <= '\U{200A}')
    || c == '\U{2028}' || c == '\U{2029}' || c == '\U{202F}' || c == '\U{205F}' || c == '\U{3000}'
  }

  function TrimLeft(s: string): (r: string) {
    if s != [] && Space(s[0]) then TrimLeft(s[1..]) else s
  }

  function TrimRight(s: string): (r: string) {
    if s != [] && Space(s[|s| - 1]) then TrimRight(s[..|s| - 1]) else s
  }

  function Trim(s: string): (r: string) {
    TrimRight(TrimLeft(s))
  }

  /** A name that stays inside the lock directory. */
  predicate Usable(name: string) {
    name != "" && name != "." && name != ".." && '/' !in name && '\\' !in name
  }

  // ----- sorting -----

  ghost predicate Ascending(names: seq<string>) {
    forall i, j :: 0 <= i < j < |names| ==> Less(names[i], names[j])
  }

  function Insert(x: string, s: seq<string>): (r: seq<string>)
    requires Ascending(s)
    ensures Ascending(r) && forall y :: y in r <==> y in s || y == x
  {
    if s == [] then [x]
    else if s[0] == x then s
    else if Less(x, s[0]) then
      InsertFirst(x, s);
      [x] + s
    else
      LessTotal(x, s[0]);
      InsertLater(s);
      [s[0]] + Insert(x, s[1..])
  }

  lemma InsertFirst(x: string, s: seq<string>)
    requires Ascending(s) && s != [] && Less(x, s[0])
    ensures Ascending([x] + s)
  {
    forall j | 0 < j < |s| ensures Less(x, s[j]) {
      LessTrans(x, s[0], s[j]);
    }
  }

  lemma InsertLater(s: seq<string>)
    requires Ascending(s) && s != []
    ensures Ascending(s[1..]) && forall y :: y in s[1..] ==> Less(s[0], y)
    ensures s == [s[0]] + s[1..]
  {
  }

  /** Sorted without duplicates. */
  function Sorted(names: seq<string>): (r: seq<string>)
    ensures Ascending(r) && forall y :: y in r <==> y in names
  {
    if names == [] then [] else
      assert names == names[..|names| - 1] + [names[|names| - 1]];
      Insert(names[|names| - 1], Sorted(names[..|names| - 1]))
  }

  // ----- the files of a request -----

  function Domains(keys: seq<string>): (r: seq<Lock>)
    ensures |r| == |keys| && forall i :: 0 <= i < |keys| ==> r[i] == Domain(keys[i])
  {
    seq(|keys|, i requires 0 <= i < |keys| => Domain(keys[i]))
  }

  function NodeLocks(ids: seq<string>): (r: seq<Lock>)
    ensures |r| == |ids| && forall i :: 0 <= i < |ids| ==> r[i] == NodeLock(Trim(ids[i]))
  {
    seq(|ids|, i requires 0 <= i < |ids| => NodeLock(Trim(ids[i])))
  }

  function Paths(keys: seq<string>, ids: seq<string>): (r: seq<Lock>) {
    Domains(Sorted(keys)) + NodeLocks(Sorted(ids))
  }

  ghost predicate AllUsable(ids: seq<string>) {
    forall id :: id in ids ==> Usable(Trim(id))
  }

  /** The ordered lock files of a request; refused when any node ID is unusable as a name. */
  method LockPaths(keys: seq<string>, ids: seq<string>) returns (r: Option<seq<Lock>>)
    ensures r.Some? <==> forall id :: id in ids ==>
                           var name := Trim(id); name != "" && name != "." && name != ".." && '/' !in name && '\\' !in name
    ensures r.Some? ==> r.value == Paths(keys, ids)
    ensures r.Some? ==> forall l :: l in r.value <==> (l.Domain? && l.name in keys) || (l.NodeLock? && exists id :: id in ids && l.name == Trim(id))
  {
    var domains := DomainPaths(Sorted(keys));
    var nodes := NodePaths(Sorted(ids));
    assert AllUsable(Sorted(ids)) <==> AllUsable(ids);
    if nodes.None? {
      return None;
    }
    r := Some(domains + nodes.value);
    PathsHold(keys, ids);
  }

  /** A request names exactly its domains and the trimmed names of its nodes. */
  lemma PathsHold(keys: seq<string>, ids: seq<string>)
    ensures forall l :: l in Paths(keys, ids) <==>
              (l.Domain? && l.name in keys) || (l.NodeLock? && exists id :: id in ids && l.name == Trim(id))
  {
    var ks, ns := Domains(Sorted(keys)), NodeLocks(Sorted(ids));
    forall l | l in Paths(keys, ids) ensures (l.Domain? && l.name in keys) || (l.NodeLock? && exists id :: id in ids && l.name == Trim(id)) {
      if l in ks {
        var i :| 0 <= i < |ks| && ks[i] == l;
        assert Sorted(keys)[i] in keys;
      } else {
        var i :| 0 <= i < |ns| && ns[i] == l;
        assert Sorted(ids)[i] in ids;
      }
    }
    forall k | k in keys ensures Domain(k) in Paths(keys, ids) {
      var i :| 0 <= i < |Sorted(keys)| && Sorted(keys)[i] == k;
      assert ks[i] == Domain(k);
    }
    forall id | id in ids ensures NodeLock(Trim(id)) in Paths(keys, ids) {
      var i :| 0 <= i < |Sorted(ids)| && Sorted(ids)[i] == id;
      assert ns[i] == NodeLock(Trim(id));
    }
  }

  // ----- trimming -----

  const WHITE: set<char> :=
    {' ', '\t', '\n', '\U{0B}', '\U{0C}', '\r', '\U{85}', '\U{A0}', '\U{1680}', '\U{2000}', '\U{2001}', '\U{2002}', '\U{2003}',
     '\U{2004}', '\U{2005}', '\U{2006}', '\U{2007}', '\U{2008}', '\U{2009}', '\U{200A}', '\U{2028}', '\U{2029}', '\U{202F}',
     '\U{205F}', '\U{3000}'}

  predicate AllWhite(s: string) {
    forall c :: c in s ==> c in WHITE
  }

  lemma SpaceIff(c: char)
    ensures Space(c) <==> c in WHITE
  {
  }

  lemma {:induction false} TrimLeftIs(s: string) returns (front: string)
    ensures s == front + TrimLeft(s) && AllWhite(front) && (TrimLeft(s) != [] ==> TrimLeft(s)[0] !in WHITE)
  {
    front := [];
    if s != [] {
      SpaceIff(s[0]);
      if Space(s[0]) {
        var rest := TrimLeftIs(s[1..]);
        front := [s[0]] + rest;
        assert s == [s[0]] + s[1..];
      }
    }
  }

  lemma {:induction false} TrimRightIs(s: string) returns (back: string)
    ensures s == TrimRight(s) + back && AllWhite(back)
    ensures TrimRight(s) != [] ==> TrimRight(s)[0] == s[0] && TrimRight(s)[|TrimRight(s)| - 1] !in WHITE
  {
    back := [];
    if s != [] {
      var n := |s| - 1;
      SpaceIff(s[n]);
      if Space(s[n]) {
        var rest := TrimRightIs(s[..n]);
        back := rest + [s[n]];
        assert s == s[..n] + [s[n]];
      }
    }
  }

  /** Trimming takes white space from both ends, all of it and nothing else. */
  lemma TrimIs(s: string) returns (front: string, back: string)
    ensures s == front + Trim(s) + back && AllWhite(front) && AllWhite(back)
    ensures Trim(s) != [] ==> Trim(s)[0] !in WHITE && Trim(s)[|Trim(s)| - 1] !in WHITE
  {
    front := TrimLeftIs(s);
    back := TrimRightIs(TrimLeft(s));
  }

  method DomainPaths(keys: seq<string>) returns (paths: seq<Lock>)
    ensures paths == Domains(keys)
  {
    paths := [];
    for i := 0 to |keys|
      invariant paths == Domains(keys)[..i]
    {
      paths := paths + [Domain(keys[i])];
    }
  }

  method NodePaths(ids: seq<string>) returns (r: Option<seq<Lock>>)
    ensures r.Some? <==> AllUsable(ids)
    ensures r.Some? ==> r.value == NodeLocks(ids)
  {
    var paths: seq<Lock> := [];
    for i := 0 to |ids|
      invariant paths == NodeLocks(ids)[..i]
      invariant forall j :: 0 <= j < i ==> Usable(Trim(ids[j]))
    {
      var name := Trim(ids[i]);
      if !Usable(name) {
        assert ids[i] in ids;
        return None;
      }
      paths := paths + [NodeLock(name)];
    }
    r := Some(paths);
  }

  // ----- the order of the locks -----

  /** Global domains before node locks, each sorted by name. */
  predicate Before(a: Lock, b: Lock) {
    match (a, b)
    case (Domain(x), Domain(y)) => Less(x, y)
    case (NodeLock(x), NodeLock(y)) => Less(x, y)
    case (Domain(_), NodeLock(_)) => true
    case (NodeLock(_), Domain(_)) => false
  }

  ghost predicate InOrder(locks: seq<Lock>) {
    forall i, j :: 0 <= i < j < |locks| ==> Before(locks[i], locks[j])
  }

  /** Trimming keeps the order of the requested IDs, and keeps them apart. */
  ghost predicate TrimsInOrder(ids: seq<string>) {
    forall a, b :: a in ids && b in ids && Less(a, b) ==> Less(Trim(a), Trim(b))
  }

  lemma TidyInOrder(keys: seq<string>, ids: seq<string>)
    requires TrimsInOrder(ids)
    ensures InOrder(Paths(keys, ids))
  {
    var n, sorted, ps := |Sorted(keys)|, Sorted(ids), Paths(keys, ids);
    forall i, j | 0 <= i < j < |ps| ensures Before(ps[i], ps[j]) {
      if n <= i {
        assert sorted[i - n] in ids && sorted[j - n] in ids;
      }
    }
  }

  lemma InOrderTidy(keys: seq<string>, ids: seq<string>, a: string, b: string)
    requires InOrder(Paths(keys, ids)) && a in ids && b in ids && Less(a, b)
    ensures Less(Trim(a), Trim(b))
  {
    var n, sorted := |Sorted(keys)|, Sorted(ids);
    var i, j := PlacesOf(sorted, a, b);
    assert Before(Paths(keys, ids)[n + i], Paths(keys, ids)[n + j]);
  }

  lemma PlacesOf(names: seq<string>, a: string, b: string) returns (i: nat, j: nat)
    requires Ascending(names) && a in names && b in names && Less(a, b)
    ensures i < j < |names| && names[i] == a && names[j] == b
  {
    i :| 0 <= i < |names| && names[i] == a;
    j :| 0 <= j < |names| && names[j] == b;
    LessTotal(a, b);
  }

  /** A request's files are taken in the documented order exactly when trimming keeps its IDs in order. */
  lemma PathsInOrderIff(keys: seq<string>, ids: seq<string>)
    ensures InOrder(Paths(keys, ids)) <==> TrimsInOrder(ids)
  {
    if TrimsInOrder(ids) {
      TidyInOrder(keys, ids);
    }
    if InOrder(Paths(keys, ids)) {
      forall a, b | a in ids && b in ids && Less(a, b) ensures Less(Trim(a), Trim(b)) {
        InOrderTidy(keys, ids, a, b);
      }
    }
  }
}
