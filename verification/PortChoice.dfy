/** How a request is routed to a media port: sort the port numbers, index by
    `session_id % n`. */
module PortChoice {
  predicate Ascending(s: seq<nat>) {
    forall i, j :: 0 <= i < j < |s| ==> s[i] <= s[j]
  }

  lemma AscendingCons(x: nat, s: seq<nat>)
    requires Ascending(s) && (s != [] ==> x <= s[0])
    ensures Ascending([x] + s)
  {
  }

  function Insert(s: seq<nat>, x: nat): (r: seq<nat>)
    requires Ascending(s)
    ensures Ascending(r)
    ensures multiset(r) == multiset(s) + multiset{x}
    ensures r != [] && r[0] == (if s == [] || x <= s[0] then x else s[0])
  {
    if s == [] then [x]
    else if x <= s[0] then
      AscendingCons(x, s);
      [x] + s
    else
      assert s == [s[0]] + s[1..];
      var r := Insert(s[1..], x);
      AscendingCons(s[0], r);
      [s[0]] + r
  }

  function Sorted(s: seq<nat>): (r: seq<nat>)
    ensures Ascending(r)
    ensures multiset(r) == multiset(s)
    ensures |r| == |s|
  {
    if s == [] then []
    else
      assert s == [s[0]] + s[1..];
      var r := Insert(Sorted(s[1..]), s[0]);
      assert |r| == |multiset(r)| && |s| == |multiset(s)|;
      r
  }

  lemma SmallestFirst(a: seq<nat>, b: seq<nat>)
    requires Ascending(a) && Ascending(b) && multiset(a) == multiset(b) && a != [] && b != []
    ensures a[0] == b[0]
  {
    assert a[0] in multiset(b) && b[0] in multiset(a);
    assert a[0] in b && b[0] in a;
  }

  lemma RestAsMultiset(s: seq<nat>)
    requires s != []
    ensures multiset(s[1..]) == multiset(s) - multiset{s[0]}
  {
    assert s == [s[0]] + s[1..];
  }

  /** A multiset has only one ascending arrangement. */
  lemma {:induction false} AscendingIsUnique(a: seq<nat>, b: seq<nat>)
    requires Ascending(a) && Ascending(b) && multiset(a) == multiset(b)
    ensures a == b
    decreases |a|
  {
    assert |a| == |multiset(a)| && |b| == |multiset(b)|;
    if a != [] {
      SmallestFirst(a, b);
      RestAsMultiset(a);
      RestAsMultiset(b);
      AscendingIsUnique(a[1..], b[1..]);
      assert a == [a[0]] + a[1..] && b == [b[0]] + b[1..];
    }
  }

  /** The port for a session, given the ports in whatever order the hash map lists them. */
  function Pick(ports: seq<nat>, session: nat): (port: nat)
    requires ports != []
    ensures port in ports
  {
    var port := Sorted(ports)[session % |ports|];
    assert port in multiset(Sorted(ports));
    port
  }

  /** Listing order does not matter. */
  lemma {:induction false} PickIgnoresOrder(a: seq<nat>, b: seq<nat>, session: nat)
    requires a != [] && multiset(a) == multiset(b)
    ensures b != [] && Pick(a, session) == Pick(b, session)
  {
    assert |a| == |multiset(a)| && |b| == |multiset(b)|;
    AscendingIsUnique(Sorted(a), Sorted(b));
  }

  predicate Distinct(ports: seq<nat>) {
    forall i, j :: 0 <= i < j < |ports| ==> ports[i] != ports[j]
  }

  lemma RepeatCountsTwice(s: seq<nat>, i: nat, j: nat)
    requires i < j < |s| && s[i] == s[j]
    ensures multiset(s)[s[j]] >= 2
  {
    assert s == s[..j] + [s[j]] + s[j + 1..];
    assert s[i] in s[..j];
    assert multiset(s[..j])[s[j]] >= 1;
  }

  lemma {:induction false} DistinctCountsOnce(s: seq<nat>, x: nat)
    requires forall i, j :: 0 <= i < j < |s| ==> s[i] != s[j]
    ensures multiset(s)[x] <= 1
    decreases |s|
  {
    if s != [] {
      assert s == [s[0]] + s[1..];
      DistinctCountsOnce(s[1..], x);
      if x == s[0] {
        assert x !in s[1..];
      }
    }
  }

  function Elements(s: seq<nat>): set<nat> {
    set x | x in s
  }

  predicate Strict(s: seq<nat>) {
    forall i, j :: 0 <= i < j < |s| ==> s[i] < s[j]
  }

  lemma {:induction false} SortedIsStrict(ports: seq<nat>)
    requires Distinct(ports)
    ensures Strict(Sorted(ports))
  {
    var r := Sorted(ports);
    forall i, j | 0 <= i < j < |r| ensures r[i] < r[j] {
      if r[i] == r[j] {
        RepeatCountsTwice(r, i, j);
        DistinctCountsOnce(ports, r[j]);
      }
    }
  }

  lemma ElementsSnoc(s: seq<nat>, x: nat)
    ensures Elements(s + [x]) == Elements(s) + {x}
  {
  }

  lemma {:induction false} StrictCount(s: seq<nat>)
    requires Strict(s)
    ensures |Elements(s)| == |s|
    decreases |s|
  {
    if s != [] {
      var init, last := s[..|s| - 1], s[|s| - 1];
      assert s == init + [last];
      StrictCount(init);
      ElementsSnoc(init, last);
      assert last !in init;
    }
  }

  lemma BelowIsPrefix(r: seq<nat>, i: nat, p: nat)
    requires Strict(r) && i < |r|
    ensures p in r && p < r[i] <==> p in r[..i]
  {
    if p in r && p < r[i] {
      var j :| 0 <= j < |r| && r[j] == p;
      assert r[..i][j] == p;
    }
  }

  lemma SortedMembers(ports: seq<nat>, p: nat)
    ensures p in ports <==> p in Sorted(ports)
  {
    assert p in ports <==> p in multiset(ports);
    assert p in Sorted(ports) <==> p in multiset(Sorted(ports));
  }

  /** The ports below a given one. */
  function Below(ports: seq<nat>, port: nat): set<nat> {
    set p | p in ports && p < port
  }

  lemma {:induction false} BelowIsElements(ports: seq<nat>, r: seq<nat>, i: nat)
    requires Strict(r) && r == Sorted(ports) && i < |r|
    ensures Below(ports, r[i]) == Elements(r[..i])
  {
    forall p: nat ensures p in Below(ports, r[i]) <==> p in Elements(r[..i]) {
      SortedMembers(ports, p);
      BelowIsPrefix(r, i, p);
    }
  }

  lemma {:induction false} RankAt(ports: seq<nat>, i: nat)
    requires i < |ports| && Distinct(ports)
    ensures |Below(ports, Sorted(ports)[i])| == i
  {
    SortedIsStrict(ports);
    StrictCount(Sorted(ports)[..i]);
    BelowIsElements(ports, Sorted(ports), i);
  }

  /** Which port it is: the one with exactly `session mod n` smaller ports. */
  lemma {:induction false} PickRank(ports: seq<nat>, session: nat)
    requires ports != [] && Distinct(ports)
    ensures |Below(ports, Pick(ports, session))| == session % |ports|
  {
    RankAt(ports, session % |ports|);
  }

  /** Distinct ports are all used, each by exactly one residue class of session ids. */
  lemma PickSeparatesResidues(ports: seq<nat>, s: nat, t: nat)
    requires ports != [] && Distinct(ports)
    ensures Pick(ports, s) == Pick(ports, t) <==> s % |ports| == t % |ports|
  {
    SortedIsStrict(ports);
  }

}
