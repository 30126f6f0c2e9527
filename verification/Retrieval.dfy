/** A bounded bundle of memory for one generation call. */
module Retrieval {
  import opened Lists
  import Ids

  datatype Memory = Memory(
    kind: string,
    scope: string,
    key: string,
    content: string,
    confidence: real,
    updatedAt: int)
  {
    predicate Outranks(other: Memory) {
      confidence > other.confidence || (confidence == other.confidence && updatedAt > other.updatedAt)
    }

    predicate Ties(other: Memory) {
      confidence == other.confidence && updatedAt == other.updatedAt
    }

    function Address(): string {
      AddressOf(kind, scope, key)
    }
  }

  function AddressOf(kind: string, scope: string, key: string): string {
    kind + ":" + scope + ":" + key
  }

  datatype Bundle = Bundle(records: seq<Memory>, available: nat, dropped: nat, chars: nat)

  // ----- Specification -----

  function Flat(recalled: seq<seq<Memory>>): seq<Memory> {
    if recalled == [] then [] else Flat(recalled[..|recalled| - 1]) + recalled[|recalled| - 1]
  }

  /** `m` goes behind everything it does not outrank. */
  function Place(s: seq<Memory>, m: Memory): seq<Memory> {
    if s == [] then [m]
    else if m.Outranks(s[|s| - 1]) then Place(s[..|s| - 1], m) + [s[|s| - 1]]
    else s + [m]
  }

  /** The stable sort by falling rank. */
  function Ranked(s: seq<Memory>): seq<Memory> {
    if s == [] then [] else Place(Ranked(s[..|s| - 1]), s[|s| - 1])
  }

  predicate Addressed(s: seq<Memory>, address: string) {
    exists i :: 0 <= i < |s| && s[i].Address() == address
  }

  /** The first record of every address. */
  function Unique(s: seq<Memory>): seq<Memory> {
    if s == [] then []
    else
      var past := Unique(s[..|s| - 1]);
      var m := s[|s| - 1];
      if Addressed(past, m.Address()) then past else past + [m]
  }

  function Chars(s: seq<Memory>): nat {
    if s == [] then 0 else Chars(s[..|s| - 1]) + |s[|s| - 1].content|
  }

  // ----- The assembly as the source runs it -----

  method Gather(recalled: seq<seq<Memory>>) returns (all: seq<Memory>)
    ensures all == Flat(recalled)
  {
    all := [];
    for k := 0 to |recalled|
      invariant all == Flat(recalled[..k])
    {
      assert recalled[..k + 1][..k] == recalled[..k];
      all := all + recalled[k];
    }
    assert recalled[..|recalled|] == recalled;
  }

  method DropRepeats(all: seq<Memory>) returns (unique: seq<Memory>)
    ensures unique == Unique(all)
  {
    var seen: set<string> := {};
    unique := [];
    for i := 0 to |all|
      invariant unique == Unique(all[..i])
      invariant forall a :: a in seen <==> Addressed(unique, a)
    {
      assert all[..i + 1][..i] == all[..i];
      var address := all[i].Address();
      if address !in seen {
        AddressedMore(unique, all[i]);
        seen := seen + {address};
        unique := unique + [all[i]];
      }
    }
    assert all[..|all|] == all;
  }

  /** The longest prefix within the budget: a shorter one always fits, a longer one never. */
  method KeepWithin(unique: seq<Memory>, budget: int) returns (kept: seq<Memory>, total: nat)
    ensures kept <= unique && total == Chars(kept)
    ensures forall n :: 0 < n <= |unique| ==> (Chars(unique[..n]) <= budget <==> n <= |kept|)
  {
    total := 0;
    var i := 0;
    while i < |unique|
      invariant 0 <= i <= |unique| && total == Chars(unique[..i])
      invariant forall n :: 0 < n <= i ==> Chars(unique[..n]) <= budget
    {
      assert unique[..i + 1][..i] == unique[..i];
      if total + |unique[i].content| > budget {
        break;
      }
      total := total + |unique[i].content|;
      i := i + 1;
    }
    forall n | i < n <= |unique| ensures Chars(unique[..n]) > budget {
      assert unique[..i + 1][..i] == unique[..i];
      CharsGrow(unique, i + 1, n);
    }
    kept := unique[..i];
  }

  method Assemble(recalled: seq<seq<Memory>>, budget: int) returns (b: Bundle)
    ensures var unique := Unique(Ranked(Flat(recalled)));
            && b.records <= unique && b.chars == Chars(b.records)
            && b.available == |unique| && |b.records| + b.dropped == b.available
            && (forall n :: 0 < n <= |unique| ==> (Chars(unique[..n]) <= budget <==> n <= |b.records|))
  {
    var all := Gather(recalled);
    all := Ranked(all);
    var unique := DropRepeats(all);
    var kept, total := KeepWithin(unique, budget);
    b := Bundle(kept, |unique|, |unique| - |kept|, total);
  }

  lemma AddressedMore(s: seq<Memory>, m: Memory)
    ensures forall a :: Addressed(s + [m], a) <==> Addressed(s, a) || a == m.Address()
  {
    var t := s + [m];
    forall a ensures Addressed(t, a) <==> Addressed(s, a) || a == m.Address() {
      assert t[|s|] == m;
      if Addressed(s, a) {
        var i :| 0 <= i < |s| && s[i].Address() == a;
        assert t[i] == s[i];
      }
      if Addressed(t, a) {
        var i :| 0 <= i < |t| && t[i].Address() == a;
        assert i < |s| ==> s[i] == t[i];
      }
    }
  }

  lemma {:induction false} CharsGrow(s: seq<Memory>, i: nat, n: nat)
    requires i <= n <= |s|
    ensures Chars(s[..i]) <= Chars(s[..n])
    decreases n
  {
    if i < n {
      CharsGrow(s, i, n - 1);
      assert s[..n][..n - 1] == s[..n - 1];
    }
  }

  // ----- Ranking -----

  ghost predicate Falling(s: seq<Memory>) {
    forall i, j :: 0 <= i < j < |s| ==> !s[j].Outranks(s[i])
  }

  /** The records of one rank, in order. */
  function OfRank(s: seq<Memory>, rank: Memory): seq<Memory> {
    if s == [] then []
    else OfRank(s[..|s| - 1], rank) + if s[|s| - 1].Ties(rank) then [s[|s| - 1]] else []
  }

  lemma {:induction false} PlacePermutes(s: seq<Memory>, m: Memory)
    ensures multiset(Place(s, m)) == multiset(s) + multiset{m}
    ensures forall x :: x in Place(s, m) <==> x in s || x == m
  {
    if s != [] {
      var n := |s| - 1;
      assert s == s[..n] + [s[n]];
      if m.Outranks(s[n]) {
        PlacePermutes(s[..n], m);
      }
    }
  }

  lemma FallingAppend(s: seq<Memory>, m: Memory)
    requires Falling(s) && forall x :: x in s ==> !m.Outranks(x)
    ensures Falling(s + [m])
  {
    var t := s + [m];
    forall i, j | 0 <= i < j < |t| ensures !t[j].Outranks(t[i]) {
      if j == |s| {
        assert s[i] in s;
      }
    }
  }

  lemma {:induction false} PlaceFalls(s: seq<Memory>, m: Memory)
    requires Falling(s)
    ensures Falling(Place(s, m))
  {
    if s != [] {
      var n := |s| - 1;
      if m.Outranks(s[n]) {
        PlaceFalls(s[..n], m);
        PlacePermutes(s[..n], m);
        FallingAppend(Place(s[..n], m), s[n]);
      } else {
        FallingAppend(s, m);
      }
    }
  }

  lemma {:induction false} PlaceKeepsRank(s: seq<Memory>, m: Memory, rank: Memory)
    ensures OfRank(Place(s, m), rank) == OfRank(s, rank) + if m.Ties(rank) then [m] else []
  {
    if s == [] {
      assert [m][..0] == [];
    } else {
      var n := |s| - 1;
      if m.Outranks(s[n]) {
        PlaceKeepsRank(s[..n], m, rank);
        var p := Place(s[..n], m);
        assert (p + [s[n]])[..|p|] == p;
      } else {
        assert (s + [m])[..|s|] == s;
      }
    }
  }

  lemma {:induction false} RankedFalls(s: seq<Memory>)
    ensures Falling(Ranked(s)) && multiset(Ranked(s)) == multiset(s)
  {
    if s != [] {
      var n := |s| - 1;
      RankedFalls(s[..n]);
      PlaceFalls(Ranked(s[..n]), s[n]);
      PlacePermutes(Ranked(s[..n]), s[n]);
      assert s == s[..n] + [s[n]];
    }
  }

  lemma {:induction false} RankedStable(s: seq<Memory>, rank: Memory)
    ensures OfRank(Ranked(s), rank) == OfRank(s, rank)
  {
    if s != [] {
      var n := |s| - 1;
      RankedStable(s[..n], rank);
      PlaceKeepsRank(Ranked(s[..n]), s[n], rank);
    }
  }

  /** The ranking is by falling rank, a rearrangement of what was recalled, and leaves
      records of equal rank in the order they were recalled in. */
  lemma RankedIs(s: seq<Memory>, rank: Memory)
    ensures Falling(Ranked(s)) && multiset(Ranked(s)) == multiset(s)
    ensures OfRank(Ranked(s), rank) == OfRank(s, rank)
  {
    RankedFalls(s);
    RankedStable(s, rank);
  }

  /** In the ranking confidence falls, and among equally confident records the time of the
      last update does. */
  lemma ConfidenceThenRecency(s: seq<Memory>, i: nat, j: nat)
    requires i < j < |Ranked(s)|
    ensures var a, b := Ranked(s)[i], Ranked(s)[j];
            a.confidence > b.confidence || (a.confidence == b.confidence && a.updatedAt >= b.updatedAt)
  {
    RankedFalls(s);
  }

  /** What is recalled is all there, kind by kind and in order. */
  lemma {:induction false} FlatIs(a: seq<seq<Memory>>, b: seq<seq<Memory>>, s: seq<Memory>)
    ensures Flat(a + b) == Flat(a) + Flat(b)
    ensures Flat([s]) == s && Flat([]) == []
    decreases |b|
  {
    assert [s][..0] == [];
    if b == [] {
      assert a + b == a;
    } else {
      FlatIs(a, b[..|b| - 1], s);
      assert (a + b)[..|a + b| - 1] == a + b[..|b| - 1];
    }
  }

  /** The size of a bundle is the sum of the sizes of its contents. */
  lemma {:induction false} CharsAre(a: seq<Memory>, b: seq<Memory>, m: Memory)
    ensures Chars(a + b) == Chars(a) + Chars(b)
    ensures Chars([m]) == |m.content| && Chars([]) == 0
    decreases |b|
  {
    assert [m][..0] == [];
    if b == [] {
      assert a + b == a;
    } else {
      CharsAre(a, b[..|b| - 1], m);
      assert (a + b)[..|a + b| - 1] == a + b[..|b| - 1];
    }
  }

  // ----- One record for each address -----

  /** The record kept for an address comes before all others of that address. */
  ghost predicate FirstOfAddress(s: seq<Memory>, m: Memory) {
    exists i :: 0 <= i < |s| && s[i] == m && forall j :: 0 <= j < i ==> s[j].Address() != m.Address()
  }

  lemma {:induction false} UniqueIs(s: seq<Memory>)
    ensures var u := Unique(s);
            && (forall a :: Addressed(u, a) <==> Addressed(s, a))
            && (forall i, j :: 0 <= i < j < |u| ==> u[i].Address() != u[j].Address())
            && (forall i :: 0 <= i < |u| ==> FirstOfAddress(s, u[i]))
  {
    if s != [] {
      var n := |s| - 1;
      var past, m := Unique(s[..n]), s[n];
      UniqueIs(s[..n]);
      assert s == s[..n] + [m];
      AddressedMore(s[..n], m);
      AddressedMore(past, m);
      FirstsStay(s[..n], m);
    }
  }

  lemma FirstsStay(s: seq<Memory>, m: Memory)
    ensures forall x :: FirstOfAddress(s, x) ==> FirstOfAddress(s + [m], x)
    ensures !Addressed(s, m.Address()) ==> FirstOfAddress(s + [m], m)
  {
    var t := s + [m];
    forall x | FirstOfAddress(s, x) ensures FirstOfAddress(t, x) {
      var i :| 0 <= i < |s| && s[i] == x && forall j :: 0 <= j < i ==> s[j].Address() != x.Address();
      assert t[i] == x;
    }
    assert t[|s|] == m;
  }

  /** `b` stands before `m` in the ranking or ties with it. */
  predicate AtLeast(b: Memory, m: Memory) {
    b.confidence >= m.confidence && (b.confidence == m.confidence ==> b.updatedAt >= m.updatedAt)
  }

  lemma {:induction false} FirstIsBest(ranked: seq<Memory>, b: Memory, m: Memory)
    requires Falling(ranked) && m in ranked && FirstOfAddress(ranked, b) && b.Address() == m.Address()
    ensures AtLeast(b, m) && !m.Outranks(b)
  {
    var k :| 0 <= k < |ranked| && ranked[k] == m;
    var f :| 0 <= f < |ranked| && ranked[f] == b && forall j :: 0 <= j < f ==> ranked[j].Address() != b.Address();
    assert f <= k;
  }

  lemma {:induction false} UniqueHasBest(ranked: seq<Memory>, m: Memory) returns (i: nat)
    requires Falling(ranked) && m in ranked
    ensures i < |Unique(ranked)| && Unique(ranked)[i].Address() == m.Address() && AtLeast(Unique(ranked)[i], m)
  {
    UniqueIs(ranked);
    var k :| 0 <= k < |ranked| && ranked[k] == m;
    assert Addressed(ranked, m.Address());
    i :| 0 <= i < |Unique(ranked)| && Unique(ranked)[i].Address() == m.Address();
    FirstIsBest(ranked, Unique(ranked)[i], m);
  }

  /** Of all recalled records with one address the bundle can hold exactly one, and no
      other of them is more confident, or as confident and more recent. */
  lemma BestOfEachAddress(recalled: seq<seq<Memory>>, m: Memory)
    requires m in Flat(recalled)
    ensures var u := Unique(Ranked(Flat(recalled)));
            && (exists i :: 0 <= i < |u| && u[i].Address() == m.Address() && AtLeast(u[i], m))
            && (forall i, j :: 0 <= i < j < |u| ==> u[i].Address() != u[j].Address())
  {
    var ranked := Ranked(Flat(recalled));
    RankedFalls(Flat(recalled));
    assert m in multiset(ranked);
    UniqueIs(ranked);
    var i := UniqueHasBest(ranked, m);
  }

  /** What stands before the key in an address. */
  function Stem(kind: string, scope: string): string {
    kind + ":" + scope + ":"
  }

  /** Addresses are meant to stand for kind, scope and key. Two are equal exactly when one
      stem continues the other and the keys make up for the difference. */
  lemma AddressesEqualIff(a: Memory, b: Memory)
    ensures var p, q := Stem(a.kind, a.scope), Stem(b.kind, b.scope);
            a.Address() == b.Address() <==>
            || (p <= q && a.key == q[|p|..] + b.key)
            || (q <= p && b.key == p[|q|..] + a.key)
  {
    SameText(Stem(a.kind, a.scope), a.key, Stem(b.kind, b.scope), b.key);
  }

  lemma SameText(p: string, x: string, q: string, y: string)
    ensures p + x == q + y <==> (p <= q && x == q[|p|..] + y) || (q <= p && y == p[|q|..] + x)
  {
    var s, t := p + x, q + y;
    assert s[..|p|] == p && s[|p|..] == x && t[..|q|] == q && t[|q|..] == y;
    if p <= q {
      assert q == p + q[|p|..] && p + (q[|p|..] + y) == q + y;
    }
    if q <= p {
      assert p == q + p[|q|..] && q + (p[|q|..] + x) == p + x;
    }
    if s == t {
      if |p| <= |q| {
        assert t[..|p|] == q[..|p|] && t[|p|..] == q[|p|..] + y;
      } else {
        assert s[..|q|] == p[..|q|] && s[|q|..] == p[|q|..] + x;
      }
    }
  }

  /** Some keys make two kinds and scopes collide exactly when one stem continues the other. */
  lemma ScopesCollideIff(k1: string, s1: string, k2: string, s2: string)
    ensures (exists x, y :: AddressOf(k1, s1, x) == AddressOf(k2, s2, y)) <==>
            Stem(k1, s1) <= Stem(k2, s2) || Stem(k2, s2) <= Stem(k1, s1)
  {
    var p, q := Stem(k1, s1), Stem(k2, s2);
    forall x, y | AddressOf(k1, s1, x) == AddressOf(k2, s2, y) ensures p <= q || q <= p {
      SameText(p, x, q, y);
    }
    if p <= q {
      SameText(p, q[|p|..] + "", q, "");
      assert AddressOf(k1, s1, q[|p|..] + "") == AddressOf(k2, s2, "");
    } else if q <= p {
      SameText(p, "", q, p[|q|..] + "");
      assert AddressOf(k1, s1, "") == AddressOf(k2, s2, p[|q|..] + "");
    }
  }

  /** Within one kind two scopes are kept apart, whatever the keys, exactly when neither
      starts with the other and a colon. So `company:stripe` and `company:acme` are, and
      `company:stripe` and `company` are not. */
  lemma OneKindCollidesIff(kind: string, s1: string, s2: string)
    requires s1 != s2
    ensures (exists x, y :: AddressOf(kind, s1, x) == AddressOf(kind, s2, y)) <==>
            s1 + ":" <= s2 || s2 + ":" <= s1
  {
    ScopesCollideIff(kind, s1, kind, s2);
    StemContinues(kind, s1, s2);
    StemContinues(kind, s2, s1);
  }

  lemma StemContinues(kind: string, s1: string, s2: string)
    requires s1 != s2
    ensures Stem(kind, s1) <= Stem(kind, s2) <==> s1 + ":" <= s2
  {
    var p, q, u := Stem(kind, s1), Stem(kind, s2), kind + ":";
    assert p == u + (s1 + ":") && q == u + (s2 + ":");
    CommonHead(u, s1 + ":", s2 + ":");
    ColonEnds(s1, s2);
    if s1 + ":" <= s2 + ":" {
      assert (s2 + ":")[..|s1| + 1] == s2[..|s1| + 1];
    }
    if s1 + ":" <= s2 {
      assert (s2 + ":")[..|s1| + 1] == s2[..|s1| + 1];
    }
  }

  lemma ColonEnds(s1: string, s2: string)
    ensures s1 + ":" == s2 + ":" <==> s1 == s2
  {
    assert (s1 + ":")[..|s1|] == s1 && (s2 + ":")[..|s2|] == s2;
  }

  lemma CommonHead(u: string, x: string, y: string)
    ensures u + x <= u + y <==> x <= y
  {
    assert (u + x)[|u|..] == x && (u + y)[|u|..] == y;
    if x <= y {
      assert y == x + y[|x|..] && u + y == u + x + y[|x|..];
    }
    if u + x <= u + y {
      assert (u + y)[|u|..|u| + |x|] == (u + x)[|u|..];
    }
  }

  /** Different kinds never collide as long as no kind contains a colon, and none does. */
  lemma KindsNeverCollide(a: Memory, b: Memory)
    requires ':' !in a.kind && ':' !in b.kind && a.Address() == b.Address()
    ensures a.kind == b.kind
  {
    var x, y := a.scope + ":" + a.key, b.scope + ":" + b.key;
    assert a.Address() == a.kind + [':'] + x && b.Address() == b.kind + [':'] + y;
    Ids.FirstSeparator(':', a.kind, x, b.kind, y);
  }

  /** In particular addresses stand for kind, scope and key where no scope contains a colon. */
  lemma AddressIsInjective(a: Memory, b: Memory)
    requires ':' !in a.kind && ':' !in b.kind && ':' !in a.scope && ':' !in b.scope
    ensures a.Address() == b.Address() <==> a.kind == b.kind && a.scope == b.scope && a.key == b.key
  {
    var x, y := a.scope + ":" + a.key, b.scope + ":" + b.key;
    assert a.Address() == a.kind + [':'] + x && b.Address() == b.kind + [':'] + y;
    if a.Address() == b.Address() {
      Ids.FirstSeparator(':', a.kind, x, b.kind, y);
      Ids.FirstSeparator(':', a.scope, a.key, b.scope, b.key);
    }
  }

  /** Scopes such as `company:stripe` do contain one, and two lessons about different
      scopes can share an address. */
  lemma ColonsCollide(a: Memory, b: Memory)
    requires a.kind == b.kind && a.scope == "company:acme" && a.key == "x" && b.scope == "company" && b.key == "acme:x"
    ensures a.Address() == b.Address() && a.scope != b.scope
  {
    var x, y := "company:acme" + ":" + "x", "company" + ":" + "acme:x";
    assert x == y;
    assert a.Address() == a.kind + ":" + x && b.Address() == b.kind + ":" + y;
  }

  /** Of two recalled lessons that share an address only one is available to the bundle. */
  lemma OnlyOneOfBoth(recalled: seq<seq<Memory>>, a: Memory, b: Memory)
    requires a != b && a.Address() == b.Address()
    ensures var u := Unique(Ranked(Flat(recalled))); !(a in u && b in u)
  {
    UniqueIs(Ranked(Flat(recalled)));
  }
}
