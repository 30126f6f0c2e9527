/** Merging reports of one opening from many sources. */
module Dedup {
  import opened Wrappers
  import opened Lists
  import Ids

  datatype Tier = DirectAts | EmployerSite | Aggregator | Derived {
    function Rank(): nat {
      match this
      case DirectAts => 3
      case EmployerSite => 2
      case Aggregator => 1
      case Derived => 0
    }
  }

  datatype Key = Key(source: string, id: string)

  datatype Record = Record(key: Key, tier: Tier, url: string, confidence: real) {
    predicate Below(other: Record) {
      tier.Rank() < other.tier.Rank() || (tier == other.tier && confidence < other.confidence)
    }
  }

  /** The fields a merge combines, one of each way of combining them. */
  datatype Job = Job(
    id: string,
    sources: seq<Record>,
    title: string,
    canonicalUrl: string,
    description: Option<string>,
    compensation: Option<string>,
    postedAt: Option<int>,
    requirements: seq<string>,
    skills: seq<string>,
    discoveredAt: int,
    lastSeenAt: int,
    mergedIds: seq<string>)

  // ----- Specification -----

  predicate Knows(records: seq<Record>, k: Key) {
    exists i :: 0 <= i < |records| && records[i].key == k
  }

  /** The records of `incoming` whose key is not there yet are added, in order. */
  function AddRecords(records: seq<Record>, incoming: seq<Record>): seq<Record> {
    if incoming == [] then records
    else
      var past := AddRecords(records, incoming[..|incoming| - 1]);
      var r := incoming[|incoming| - 1];
      if Knows(past, r.key) then past else past + [r]
  }

  /** The first record no other one exceeds. */
  function Best(records: seq<Record>): Option<Record> {
    if records == [] then None
    else
      var past := Best(records[..|records| - 1]);
      var last := records[|records| - 1];
      if past.None? || past.value.Below(last) then Some(last) else past
  }

  function BestTier(j: Job): Tier {
    var best := Best(j.sources);
    if best.Some? then best.value.tier else Derived
  }

  /** Adds one element to an ascending list without repeats. */
  function Insert(s: seq<string>, x: string): seq<string> {
    if s == [] then [x]
    else if s[0] == x then s
    else if Ids.Before(x, s[0]) then [x] + s
    else [s[0]] + Insert(s[1..], x)
  }

  function Sorted(s: seq<string>): seq<string> {
    if s == [] then [] else Insert(Sorted(s[1..]), s[0])
  }

  predicate ExistingWins(existing: Job, incoming: Job) {
    BestTier(existing).Rank() >= BestTier(incoming).Rank()
  }

  /** `canonical` is the normal form of a URL. Without any record there is nothing to take
      the URL from, and the merge raises. */
  function Merged(canonical: string -> string, existing: Job, incoming: Job): Option<Job> {
    var records := AddRecords(existing.sources, incoming.sources);
    var best := Best(records);
    if best.None? then None
    else
      var winner := if ExistingWins(existing, incoming) then existing else incoming;
      Some(existing.(
           sources := records,
           title := winner.title,
           canonicalUrl := canonical(best.value.url),
           description := OrElse(winner.description, existing.description),
           compensation := if incoming.compensation.Some? then incoming.compensation else existing.compensation,
           postedAt := if existing.postedAt.Some? then existing.postedAt else incoming.postedAt,
           requirements := Distinct(existing.requirements + incoming.requirements),
           skills := Sorted(existing.skills + incoming.skills),
           discoveredAt := if incoming.discoveredAt < existing.discoveredAt then incoming.discoveredAt
                           else existing.discoveredAt,
           lastSeenAt := if incoming.lastSeenAt > existing.lastSeenAt then incoming.lastSeenAt
                         else existing.lastSeenAt,
           mergedIds := existing.mergedIds + [incoming.id] + incoming.mergedIds))
  }

  // ----- The merge as the source runs it -----

  method MergeRecords(existing: seq<Record>, incoming: seq<Record>) returns (records: seq<Record>)
    ensures records == AddRecords(existing, incoming)
  {
    records := existing;
    var known := set r | r in existing :: r.key;
    for i := 0 to |incoming|
      invariant records == AddRecords(existing, incoming[..i])
      invariant forall k :: k in known <==> Knows(records, k)
    {
      assert incoming[..i + 1][..i] == incoming[..i];
      var r := incoming[i];
      if r.key !in known {
        KnowsMore(records, r);
        records := records + [r];
        known := known + {r.key};
      }
    }
    assert incoming[..|incoming|] == incoming;
  }

  method Merge(canonical: string -> string, existing: Job, incoming: Job) returns (r: Option<Job>)
    ensures r == Merged(canonical, existing, incoming)
  {
    var records := MergeRecords(existing.sources, incoming.sources);
    var best := Best(records);
    if best.None? {
      return None;
    }
    var winner := incoming;
    if BestTier(existing).Rank() >= BestTier(incoming).Rank() {
      winner := existing;
    }
    var discovered, seen := existing.discoveredAt, existing.lastSeenAt;
    if incoming.discoveredAt < discovered {
      discovered := incoming.discoveredAt;
    }
    if incoming.lastSeenAt > seen {
      seen := incoming.lastSeenAt;
    }
    r := Some(Job(existing.id, records, winner.title, canonical(best.value.url),
                  OrElse(winner.description, existing.description),
                  if incoming.compensation.Some? then incoming.compensation else existing.compensation,
                  if existing.postedAt.Some? then existing.postedAt else incoming.postedAt,
                  Distinct(existing.requirements + incoming.requirements),
                  Sorted(existing.skills + incoming.skills),
                  discovered, seen, existing.mergedIds + [incoming.id] + incoming.mergedIds));
  }

  lemma KnowsMore(records: seq<Record>, r: Record)
    ensures forall k :: Knows(records + [r], k) <==> Knows(records, k) || k == r.key
  {
    var all := records + [r];
    assert all[|records|] == r;
    forall k ensures Knows(all, k) <==> Knows(records, k) || k == r.key {
      if Knows(records, k) {
        var i :| 0 <= i < |records| && records[i].key == k;
        assert all[i].key == k;
      }
      if Knows(all, k) {
        var i :| 0 <= i < |all| && all[i].key == k;
        assert i < |records| ==> records[i] == all[i];
      }
    }
  }

  // ----- Folding any number of reports -----

  function Fold(canonical: string -> string, first: Job, jobs: seq<Job>): Option<Job> {
    if jobs == [] then Some(first)
    else
      var past := Fold(canonical, first, jobs[..|jobs| - 1]);
      if past.None? then None else Merged(canonical, past.value, jobs[|jobs| - 1])
  }

  function AllSources(first: Job, jobs: seq<Job>): seq<Record> {
    if jobs == [] then first.sources else AllSources(first, jobs[..|jobs| - 1]) + jobs[|jobs| - 1].sources
  }

  function AllRequirements(first: Job, jobs: seq<Job>): seq<string> {
    if jobs == [] then first.requirements
    else AllRequirements(first, jobs[..|jobs| - 1]) + jobs[|jobs| - 1].requirements
  }

  function AllSkills(first: Job, jobs: seq<Job>): seq<string> {
    if jobs == [] then first.skills else AllSkills(first, jobs[..|jobs| - 1]) + jobs[|jobs| - 1].skills
  }

  lemma {:induction false} AddTwice(records: seq<Record>, a: seq<Record>, b: seq<Record>)
    ensures AddRecords(AddRecords(records, a), b) == AddRecords(records, a + b)
    decreases |b|
  {
    if b == [] {
      assert a + b == a;
    } else {
      var n := |b| - 1;
      AddTwice(records, a, b[..n]);
      assert (a + b)[..|a + b| - 1] == a + b[..n];
    }
  }

  /** What `AddRecords` keeps of a list: every key once, each with its first record, after
      the records that were there before. */
  lemma {:induction false} AddKeepsFirst(records: seq<Record>, incoming: seq<Record>)
    ensures var r := AddRecords(records, incoming);
            && records <= r
            && (forall k :: Knows(r, k) <==> Knows(records, k) || Knows(incoming, k))
            && (forall i, j :: 0 <= i < j < |r| && |records| <= j ==> r[i].key != r[j].key)
    ensures forall j :: |records| <= j < |AddRecords(records, incoming)| ==>
              FirstWithKey(incoming, AddRecords(records, incoming)[j])
  {
    if incoming != [] {
      var n := |incoming| - 1;
      var before, last := incoming[..n], incoming[n];
      AddKeepsFirst(records, before);
      assert incoming == before + [last];
      KnowsMore(before, last);
      KnowsMore(AddRecords(records, before), last);
      FirstLasts(before, last);
    }
  }

  ghost predicate FirstWithKey(s: seq<Record>, r: Record) {
    exists i :: 0 <= i < |s| && s[i] == r && forall j :: 0 <= j < i ==> s[j].key != r.key
  }

  lemma FirstLasts(before: seq<Record>, last: Record)
    ensures forall r :: FirstWithKey(before, r) ==> FirstWithKey(before + [last], r)
    ensures !Knows(before, last.key) ==> FirstWithKey(before + [last], last)
  {
    var all := before + [last];
    forall r | FirstWithKey(before, r) ensures FirstWithKey(all, r) {
      var i :| 0 <= i < |before| && before[i] == r && forall j :: 0 <= j < i ==> before[j].key != r.key;
      assert all[i] == r;
    }
    assert all[|before|] == last;
  }

  /** The sources of a fold are those of the first report, untouched, followed by what later
      reports add: no key is lost, none comes twice, and each is represented by the very
      record that first reported it. */
  lemma {:induction false} NoSourceIsLost(canonical: string -> string, first: Job, jobs: seq<Job>)
    requires Fold(canonical, first, jobs).Some?
    ensures var r := Fold(canonical, first, jobs).value.sources;
            && first.sources <= r
            && (forall k :: Knows(r, k) <==> Knows(AllSources(first, jobs), k))
            && (forall i, j :: 0 <= i < j < |r| && |first.sources| <= j ==> r[i].key != r[j].key)
            && (forall j :: |first.sources| <= j < |r| ==> FirstWithKey(LaterSources(first, jobs), r[j]))
  {
    var later := LaterSources(first, jobs);
    SourcesOf(canonical, first, jobs);
    AddKeepsFirst(first.sources, later);
    KnowsAppend(first.sources, later);
  }

  function LaterSources(first: Job, jobs: seq<Job>): (r: seq<Record>)
    ensures AllSources(first, jobs) == first.sources + r
  {
    if jobs == [] then []
    else LaterSources(first, jobs[..|jobs| - 1]) + jobs[|jobs| - 1].sources
  }

  lemma {:induction false} SourcesOf(canonical: string -> string, first: Job, jobs: seq<Job>)
    requires Fold(canonical, first, jobs).Some?
    ensures Fold(canonical, first, jobs).value.sources == AddRecords(first.sources, LaterSources(first, jobs))
  {
    if jobs != [] {
      var n := |jobs| - 1;
      SourcesOf(canonical, first, jobs[..n]);
      AddTwice(first.sources, LaterSources(first, jobs[..n]), jobs[n].sources);
    }
  }

  lemma KnowsAppend(a: seq<Record>, b: seq<Record>)
    ensures forall k :: Knows(a + b, k) <==> Knows(a, k) || Knows(b, k)
  {
    var all := a + b;
    forall k ensures Knows(all, k) <==> Knows(a, k) || Knows(b, k) {
      if Knows(a, k) {
        var i :| 0 <= i < |a| && a[i].key == k;
        assert all[i].key == k;
      }
      if Knows(b, k) {
        var i :| 0 <= i < |b| && b[i].key == k;
        assert all[|a| + i].key == k;
      }
    }
  }

  lemma {:induction false} DistinctTwice(a: seq<string>, b: seq<string>)
    ensures Distinct(Distinct(a) + b) == Distinct(a + b)
    decreases |b|
  {
    if b == [] {
      assert a + b == a && Distinct(a) + b == Distinct(a);
      DistinctOfUnrepeated(Distinct(a));
    } else {
      var n := |b| - 1;
      DistinctTwice(a, b[..n]);
      assert (a + b)[..|a + b| - 1] == a + b[..n];
      assert (Distinct(a) + b)[..|Distinct(a) + b| - 1] == Distinct(a) + b[..n];
    }
  }

  /** Requirements keep the order in which they were first reported, without repeats. */
  lemma {:induction false} RequirementsInOrder(canonical: string -> string, first: Job, jobs: seq<Job>)
    requires jobs != [] && Fold(canonical, first, jobs).Some?
    ensures Fold(canonical, first, jobs).value.requirements == Distinct(AllRequirements(first, jobs))
  {
    var n := |jobs| - 1;
    if n > 0 {
      RequirementsInOrder(canonical, first, jobs[..n]);
      DistinctTwice(AllRequirements(first, jobs[..n]), jobs[n].requirements);
    } else {
      assert jobs[..0] == [];
    }
  }

  // ----- Single values -----

  /** A fold raises exactly if its first merge finds no record on either side. */
  lemma {:induction false} FoldRaisesIff(canonical: string -> string, first: Job, jobs: seq<Job>)
    ensures Fold(canonical, first, jobs).None? <==> jobs != [] && first.sources == [] && jobs[0].sources == []
    ensures Fold(canonical, first, jobs).Some? && jobs != [] ==> Fold(canonical, first, jobs).value.sources != []
    ensures jobs == [] ==> Fold(canonical, first, jobs) == Some(first)
  {
    if jobs != [] {
      var n := |jobs| - 1;
      FoldRaisesIff(canonical, first, jobs[..n]);
      var past := Fold(canonical, first, jobs[..n]);
      if past.Some? {
        var records := AddRecords(past.value.sources, jobs[n].sources);
        BestIs(records);
        AddKeepsFirst(past.value.sources, jobs[n].sources);
        NothingAdded(past.value.sources, jobs[n].sources);
      }
    }
  }

  lemma {:induction false} NothingAdded(records: seq<Record>, incoming: seq<Record>)
    ensures AddRecords(records, incoming) == [] <==> records == [] && incoming == []
  {
    if incoming != [] {
      NothingAdded(records, incoming[..|incoming| - 1]);
      assert !Knows([], incoming[|incoming| - 1].key);
    }
  }

  function Compensations(first: Job, jobs: seq<Job>): (r: seq<Option<string>>)
    ensures |r| == |jobs| + 1 && r[0] == first.compensation
    ensures forall k :: 0 <= k < |jobs| ==> r[k + 1] == jobs[k].compensation
  {
    seq(|jobs| + 1, k requires 0 <= k <= |jobs| => if k == 0 then first.compensation else jobs[k - 1].compensation)
  }

  function Postings(first: Job, jobs: seq<Job>): (r: seq<Option<int>>)
    ensures |r| == |jobs| + 1 && r[0] == first.postedAt
    ensures forall k :: 0 <= k < |jobs| ==> r[k + 1] == jobs[k].postedAt
  {
    seq(|jobs| + 1, k requires 0 <= k <= |jobs| => if k == 0 then first.postedAt else jobs[k - 1].postedAt)
  }

  ghost predicate LastKnown<T>(s: seq<Option<T>>, v: Option<T>) {
    if v.None? then forall k :: 0 <= k < |s| ==> s[k].None?
    else exists k :: 0 <= k < |s| && s[k] == v && forall j :: k < j < |s| ==> s[j].None?
  }

  ghost predicate FirstKnown<T>(s: seq<Option<T>>, v: Option<T>) {
    if v.None? then forall k :: 0 <= k < |s| ==> s[k].None?
    else exists k :: 0 <= k < |s| && s[k] == v && forall j :: 0 <= j < k ==> s[j].None?
  }

  lemma KnownAppend<T>(s: seq<Option<T>>, last: Option<T>, v: Option<T>)
    ensures LastKnown(s, v) ==> LastKnown(s + [last], if last.Some? then last else v)
    ensures FirstKnown(s, v) ==> FirstKnown(s + [last], if v.Some? then v else last)
  {
    var all := s + [last];
    assert all[|s|] == last;
    if LastKnown(s, v) && last.None? && v.Some? {
      var k :| 0 <= k < |s| && s[k] == v && forall j :: k < j < |s| ==> s[j].None?;
      assert all[k] == v;
    }
    if FirstKnown(s, v) && v.Some? {
      var k :| 0 <= k < |s| && s[k] == v && forall j :: 0 <= j < k ==> s[j].None?;
      assert all[k] == v;
    }
  }

  lemma ValuesStep(first: Job, jobs: seq<Job>)
    requires jobs != []
    ensures var n := |jobs| - 1;
            && Compensations(first, jobs) == Compensations(first, jobs[..n]) + [jobs[n].compensation]
            && Postings(first, jobs) == Postings(first, jobs[..n]) + [jobs[n].postedAt]
  {
  }

  lemma MergedValues(canonical: string -> string, existing: Job, incoming: Job)
    requires Merged(canonical, existing, incoming).Some?
    ensures var m := Merged(canonical, existing, incoming).value;
            && m.compensation == (if incoming.compensation.Some? then incoming.compensation else existing.compensation)
            && m.postedAt == (if existing.postedAt.Some? then existing.postedAt else incoming.postedAt)
  {
  }

  /** The compensation is the latest one reported, and the posting time the first one. */
  lemma {:induction false} LatestPayFirstPosting(canonical: string -> string, first: Job, jobs: seq<Job>)
    requires Fold(canonical, first, jobs).Some?
    ensures LastKnown(Compensations(first, jobs), Fold(canonical, first, jobs).value.compensation)
    ensures FirstKnown(Postings(first, jobs), Fold(canonical, first, jobs).value.postedAt)
  {
    if jobs == [] {
      assert Compensations(first, jobs)[0] == first.compensation && Postings(first, jobs)[0] == first.postedAt;
    } else {
      var n := |jobs| - 1;
      LatestPayFirstPosting(canonical, first, jobs[..n]);
      var past := Fold(canonical, first, jobs[..n]).value;
      KnownAppend(Compensations(first, jobs[..n]), jobs[n].compensation, past.compensation);
      KnownAppend(Postings(first, jobs[..n]), jobs[n].postedAt, past.postedAt);
      MergedValues(canonical, past, jobs[n]);
      ValuesStep(first, jobs);
    }
  }

  // ----- Skills -----

  ghost predicate Ascending(s: seq<string>) {
    forall i :: 1 <= i < |s| ==> Ids.Before(s[i - 1], s[i])
  }

  lemma {:induction false} BeforeTotal(a: string, b: string)
    ensures a == b || Ids.Before(a, b) || Ids.Before(b, a)
    ensures !(Ids.Before(a, b) && Ids.Before(b, a)) && !Ids.Before(a, a)
  {
    if a != "" && b != "" {
      BeforeTotal(a[1..], b[1..]);
      assert a == [a[0]] + a[1..] && b == [b[0]] + b[1..];
    }
    if a != "" {
      BeforeTotal(a[1..], a[1..]);
    }
  }

  lemma {:induction false} BeforeTransitive(a: string, b: string, c: string)
    requires Ids.Before(a, b) && Ids.Before(b, c)
    ensures Ids.Before(a, c)
  {
    if a != "" && a[0] == b[0] == c[0] {
      BeforeTransitive(a[1..], b[1..], c[1..]);
    }
  }

  lemma {:induction false} InsertIs(s: seq<string>, x: string)
    requires Ascending(s)
    ensures var r := Insert(s, x);
            Ascending(r) && r != [] && (r[0] == x || (s != [] && r[0] == s[0]))
              && forall y :: y in r <==> y in s || y == x
  {
    if s != [] {
      assert s == [s[0]] + s[1..];
      if s[0] != x && !Ids.Before(x, s[0]) {
        BeforeTotal(x, s[0]);
        forall i | 1 <= i < |s[1..]| ensures Ids.Before(s[1..][i - 1], s[1..][i]) {
          assert Ids.Before(s[i], s[i + 1]);
        }
        InsertIs(s[1..], x);
        var r := Insert(s[1..], x);
        assert |s| > 1 ==> Ids.Before(s[0], s[1]);
        assert Ids.Before(s[0], r[0]);
        AscendingCons(s[0], r);
      } else if s[0] != x {
        AscendingCons(x, s);
      }
    }
  }

  lemma AscendingCons(x: string, s: seq<string>)
    requires Ascending(s) && (s == [] || Ids.Before(x, s[0]))
    ensures Ascending([x] + s)
  {
    var r := [x] + s;
    forall i | 1 <= i < |r| ensures Ids.Before(r[i - 1], r[i]) {
      if i > 1 {
        assert r[i - 1] == s[i - 2] && r[i] == s[i - 1];
      }
    }
  }

  lemma {:induction false} SortedIs(s: seq<string>)
    ensures Ascending(Sorted(s)) && forall x :: x in Sorted(s) <==> x in s
  {
    if s != [] {
      assert s == [s[0]] + s[1..];
      SortedIs(s[1..]);
      InsertIs(Sorted(s[1..]), s[0]);
    }
  }

  lemma {:induction false} HeadIsLeast(s: seq<string>, i: nat)
    requires Ascending(s) && 0 < i < |s|
    ensures Ids.Before(s[0], s[i])
  {
    if i > 1 {
      HeadIsLeast(s, i - 1);
      BeforeTransitive(s[0], s[i - 1], s[i]);
    }
  }

  lemma {:induction false} AscendingUnique(a: seq<string>, b: seq<string>)
    requires Ascending(a) && Ascending(b) && forall x :: x in a <==> x in b
    ensures a == b
  {
    assert b != [] ==> b[0] in b;
    assert a != [] ==> a[0] in a;
    if a != [] {
      SameHead(a, b);
      TailElements(a);
      TailElements(b);
      AscendingUnique(a[1..], b[1..]);
      assert a == [a[0]] + a[1..] && b == [b[0]] + b[1..];
    }
  }

  lemma SameHead(a: seq<string>, b: seq<string>)
    requires Ascending(a) && Ascending(b) && a != [] && b != [] && a[0] in b && b[0] in a
    ensures a[0] == b[0]
  {
    var i :| 0 <= i < |b| && b[i] == a[0];
    var j :| 0 <= j < |a| && a[j] == b[0];
    if i > 0 {
      HeadIsLeast(b, i);
    }
    if j > 0 {
      HeadIsLeast(a, j);
    }
    BeforeTotal(a[0], b[0]);
  }

  lemma TailElements(a: seq<string>)
    requires Ascending(a) && a != []
    ensures Ascending(a[1..]) && forall x :: x in a[1..] <==> x in a && x != a[0]
  {
    forall i | 1 <= i < |a[1..]| ensures Ids.Before(a[1..][i - 1], a[1..][i]) {
      assert Ids.Before(a[i], a[i + 1]);
    }
    forall i: nat | 0 < i < |a| ensures a[i] != a[0] {
      HeadIsLeast(a, i);
      BeforeTotal(a[0], a[0]);
    }
    assert a == [a[0]] + a[1..];
  }

  /** Skills end up as the sorted union, so the order of the reports does not matter. */
  lemma {:induction false} SkillsAreTheUnion(canonical: string -> string, first: Job, jobs: seq<Job>)
    requires jobs != [] && Fold(canonical, first, jobs).Some?
    ensures Fold(canonical, first, jobs).value.skills == Sorted(AllSkills(first, jobs))
  {
    var n := |jobs| - 1;
    var past := Fold(canonical, first, jobs[..n]).value;
    var whole := AllSkills(first, jobs);
    if n > 0 {
      SkillsAreTheUnion(canonical, first, jobs[..n]);
      SortedIs(AllSkills(first, jobs[..n]));
    } else {
      assert jobs[..0] == [];
    }
    SortedIs(past.skills + jobs[n].skills);
    SortedIs(whole);
    AscendingUnique(Sorted(past.skills + jobs[n].skills), Sorted(whole));
  }

  lemma SkillsIgnoreOrder(a: seq<string>, b: seq<string>)
    requires forall x :: x in a <==> x in b
    ensures Sorted(a) == Sorted(b)
  {
    SortedIs(a);
    SortedIs(b);
    AscendingUnique(Sorted(a), Sorted(b));
  }

  // ----- Times and identifiers -----

  function Least(first: int, more: seq<int>): int {
    if more == [] then first
    else
      var past := Least(first, more[..|more| - 1]);
      if more[|more| - 1] < past then more[|more| - 1] else past
  }

  function Greatest(first: int, more: seq<int>): int {
    if more == [] then first
    else
      var past := Greatest(first, more[..|more| - 1]);
      if more[|more| - 1] > past then more[|more| - 1] else past
  }

  lemma {:induction false} ExtremesAre(first: int, more: seq<int>)
    ensures Least(first, more) in [first] + more && Greatest(first, more) in [first] + more
    ensures forall x :: x in [first] + more ==> Least(first, more) <= x <= Greatest(first, more)
  {
    if more != [] {
      var before, last := more[..|more| - 1], more[|more| - 1];
      ExtremesAre(first, before);
      assert [first] + more == [first] + before + [last];
    }
  }

  function Discoveries(jobs: seq<Job>): seq<int> {
    seq(|jobs|, i requires 0 <= i < |jobs| => jobs[i].discoveredAt)
  }

  function Sightings(jobs: seq<Job>): seq<int> {
    seq(|jobs|, i requires 0 <= i < |jobs| => jobs[i].lastSeenAt)
  }

  lemma {:induction false} FoldTimes(canonical: string -> string, first: Job, jobs: seq<Job>)
    requires Fold(canonical, first, jobs).Some?
    ensures Fold(canonical, first, jobs).value.discoveredAt == Least(first.discoveredAt, Discoveries(jobs))
    ensures Fold(canonical, first, jobs).value.lastSeenAt == Greatest(first.lastSeenAt, Sightings(jobs))
  {
    if jobs != [] {
      var n := |jobs| - 1;
      FoldTimes(canonical, first, jobs[..n]);
      assert Discoveries(jobs)[..n] == Discoveries(jobs[..n]);
      assert Sightings(jobs)[..n] == Sightings(jobs[..n]);
    }
  }

  /** First seen is the earliest and last seen the latest of all reports. */
  lemma {:induction false} SeenSpan(canonical: string -> string, first: Job, jobs: seq<Job>)
    requires Fold(canonical, first, jobs).Some?
    ensures var r := Fold(canonical, first, jobs).value;
            var found := [first.discoveredAt] + Discoveries(jobs);
            var seen := [first.lastSeenAt] + Sightings(jobs);
            && r.discoveredAt in found && (forall t :: t in found ==> r.discoveredAt <= t)
            && r.lastSeenAt in seen && (forall t :: t in seen ==> t <= r.lastSeenAt)
  {
    FoldTimes(canonical, first, jobs);
    ExtremesAre(first.discoveredAt, Discoveries(jobs));
    ExtremesAre(first.lastSeenAt, Sightings(jobs));
  }

  function AllIds(first: Job, jobs: seq<Job>): seq<string> {
    if jobs == [] then first.mergedIds
    else AllIds(first, jobs[..|jobs| - 1]) + [jobs[|jobs| - 1].id] + jobs[|jobs| - 1].mergedIds
  }

  /** A merge fails only for want of any record; otherwise every merged report is on file. */
  lemma {:induction false} EveryMergeIsOnFile(canonical: string -> string, first: Job, jobs: seq<Job>)
    requires Fold(canonical, first, jobs).Some?
    ensures Fold(canonical, first, jobs).value.mergedIds == AllIds(first, jobs)
    ensures Fold(canonical, first, jobs).value.id == first.id
  {
    if jobs != [] {
      EveryMergeIsOnFile(canonical, first, jobs[..|jobs| - 1]);
    }
  }

  // ----- Which report wins -----

  lemma {:induction false} BestIs(records: seq<Record>)
    ensures Best(records).None? <==> records == []
    ensures Best(records).Some? ==> Best(records).value in records
                                    && forall r :: r in records ==> !Best(records).value.Below(r)
  {
    if records != [] {
      var n := |records| - 1;
      BestIs(records[..n]);
      assert records == records[..n] + [records[n]];
    }
  }

  /** The order of trust in sources. */
  predicate Above(a: Tier, b: Tier) {
    || (a.DirectAts? && !b.DirectAts?)
    || (a.EmployerSite? && (b.Aggregator? || b.Derived?))
    || (a.Aggregator? && b.Derived?)
  }

  lemma RankIsTrust(a: Tier, b: Tier)
    ensures Above(a, b) <==> b.Rank() < a.Rank()
    ensures a == b <==> a.Rank() == b.Rank()
  {
  }

  /** The URL of a merge is that of a record on file: of the first among the most confident of
      the most trusted tier. */
  ghost predicate Leads(records: seq<Record>, i: nat) {
    && i < |records|
    && (forall j :: 0 <= j < |records| ==>
          && !Above(records[j].tier, records[i].tier)
          && (records[j].tier == records[i].tier ==> records[j].confidence <= records[i].confidence))
    && (forall j :: 0 <= j < i && records[j].tier == records[i].tier ==>
          records[j].confidence < records[i].confidence)
  }

  lemma {:induction false} BestLeads(records: seq<Record>) returns (i: nat)
    requires records != []
    ensures Leads(records, i) && Best(records) == Some(records[i])
  {
    var n := |records| - 1;
    if n == 0 {
      i := 0;
      assert records[..0] == [];
    } else {
      i := BestLeads(records[..n]);
      forall j | 0 <= j < |records| ensures Above(records[j].tier, records[i].tier) <==>
                                            records[i].tier.Rank() < records[j].tier.Rank()
      {
        RankIsTrust(records[j].tier, records[i].tier);
      }
      if records[i].Below(records[n]) {
        BelowAll(records, i);
        i := n;
      } else {
        assert records[..n][i] == records[i];
        forall j | 0 <= j < |records|
          ensures !Above(records[j].tier, records[i].tier)
          ensures records[j].tier == records[i].tier ==> records[j].confidence <= records[i].confidence
        {
          if j < n {
            assert records[..n][j] == records[j];
          }
        }
      }
    }
  }

  lemma BelowAll(records: seq<Record>, i: nat)
    requires |records| > 1 && Leads(records[..|records| - 1], i) && records[i].Below(records[|records| - 1])
    ensures Leads(records, |records| - 1)
  {
    var n := |records| - 1;
    RankIsTrust(records[n].tier, records[i].tier);
    forall j | 0 <= j < n
      ensures !Above(records[j].tier, records[n].tier)
      ensures records[j].tier == records[n].tier ==> records[j].confidence < records[n].confidence
    {
      assert records[..n][j] == records[j];
      RankIsTrust(records[j].tier, records[i].tier);
      RankIsTrust(records[j].tier, records[n].tier);
    }
  }

  /** The canonical URL is that of the leading record of all that are on file after the merge. */
  lemma CanonicalUrlLeads(canonical: string -> string, existing: Job, incoming: Job) returns (i: nat)
    requires Merged(canonical, existing, incoming).Some?
    ensures var m := Merged(canonical, existing, incoming).value;
            Leads(m.sources, i) && m.canonicalUrl == canonical(m.sources[i].url)
  {
    var records := AddRecords(existing.sources, incoming.sources);
    BestIs(records);
    i := BestLeads(records);
  }

  /** A key is always reported with the same tier. */
  ghost predicate TiersAgree(s: seq<Record>) {
    forall i, j :: 0 <= i < |s| && 0 <= j < |s| && s[i].key == s[j].key ==> s[i].tier == s[j].tier
  }

  function TopRank(s: seq<Record>): nat {
    if s == [] then 0
    else
      var past := TopRank(s[..|s| - 1]);
      if past < s[|s| - 1].tier.Rank() then s[|s| - 1].tier.Rank() else past
  }

  lemma {:induction false} TopIs(s: seq<Record>)
    ensures forall i :: 0 <= i < |s| ==> s[i].tier.Rank() <= TopRank(s)
    ensures TopRank(s) == 0 || exists i :: 0 <= i < |s| && s[i].tier.Rank() == TopRank(s)
  {
    if s != [] {
      TopIs(s[..|s| - 1]);
    }
  }

  lemma BestTierIsTop(j: Job)
    ensures BestTier(j).Rank() == TopRank(j.sources)
  {
    var s := j.sources;
    BestIs(s);
    TopIs(s);
    if s != [] {
      var k :| 0 <= k < |s| && s[k] == Best(s).value;
      assert s[k].tier.Rank() <= TopRank(s);
      forall i | 0 <= i < |s| ensures s[i].tier.Rank() <= BestTier(j).Rank() {
        assert s[i] in s;
      }
    }
  }

  lemma TopByKeys(s: seq<Record>, t: seq<Record>, all: seq<Record>)
    requires TiersAgree(all)
    requires forall r :: r in s ==> r in all
    requires forall r :: r in t ==> r in all
    requires forall k :: Knows(s, k) <==> Knows(t, k)
    ensures TopRank(s) == TopRank(t)
  {
    TopIs(s);
    TopIs(t);
    forall i | 0 <= i < |s| ensures s[i].tier.Rank() <= TopRank(t) {
      assert Knows(s, s[i].key);
      var j :| 0 <= j < |t| && t[j].key == s[i].key;
      assert s[i] in all && t[j] in all;
    }
    forall i | 0 <= i < |t| ensures t[i].tier.Rank() <= TopRank(s) {
      assert Knows(t, t[i].key);
      var j :| 0 <= j < |s| && s[j].key == t[i].key;
      assert t[i] in all && s[j] in all;
    }
  }

  lemma {:induction false} AddIsFromBoth(records: seq<Record>, incoming: seq<Record>)
    ensures forall r :: r in AddRecords(records, incoming) ==> r in records || r in incoming
  {
    if incoming != [] {
      AddIsFromBoth(records, incoming[..|incoming| - 1]);
    }
  }

  /** The first of the reports with the highest tier. */
  function Winner(first: Job, jobs: seq<Job>): Job {
    if jobs == [] then first
    else
      var past := Winner(first, jobs[..|jobs| - 1]);
      if BestTier(past).Rank() >= BestTier(jobs[|jobs| - 1]).Rank() then past else jobs[|jobs| - 1]
  }

  lemma {:induction false} TopAppend(a: seq<Record>, b: seq<Record>)
    ensures TopRank(a + b) == if TopRank(a) < TopRank(b) then TopRank(b) else TopRank(a)
    decreases |b|
  {
    if b == [] {
      assert a + b == a;
    } else {
      TopAppend(a, b[..|b| - 1]);
      assert (a + b)[..|a + b| - 1] == a + b[..|b| - 1];
    }
  }

  lemma {:induction false} WinnerHasTop(first: Job, jobs: seq<Job>)
    ensures BestTier(Winner(first, jobs)).Rank() == TopRank(AllSources(first, jobs))
  {
    if jobs == [] {
      BestTierIsTop(first);
    } else {
      var n := |jobs| - 1;
      WinnerHasTop(first, jobs[..n]);
      BestTierIsTop(jobs[n]);
      TopAppend(AllSources(first, jobs[..n]), jobs[n].sources);
    }
  }

  /** If a source never changes the tier it reports a job under, the title of a fold is that
      of the first report of the highest tier, in whatever order the reports arrive. */
  lemma {:induction false} HighestTierWins(canonical: string -> string, first: Job, jobs: seq<Job>)
    requires Fold(canonical, first, jobs).Some? && TiersAgree(AllSources(first, jobs))
    ensures Fold(canonical, first, jobs).value.title == Winner(first, jobs).title
  {
    if jobs != [] {
      var n := |jobs| - 1;
      var past := Fold(canonical, first, jobs[..n]).value;
      var all := AllSources(first, jobs);
      var before := AllSources(first, jobs[..n]);
      assert all == before + jobs[n].sources;
      TiersAgreePrefix(before, jobs[n].sources);
      HighestTierWins(canonical, first, jobs[..n]);
      NoSourceIsLost(canonical, first, jobs[..n]);
      SourcesOf(canonical, first, jobs[..n]);
      AddIsFromBoth(first.sources, LaterSources(first, jobs[..n]));
      TopByKeys(past.sources, before, before);
      BestTierIsTop(past);
      WinnerHasTop(first, jobs[..n]);
    }
  }

  lemma TiersAgreePrefix(a: seq<Record>, b: seq<Record>)
    requires TiersAgree(a + b)
    ensures TiersAgree(a)
  {
    forall i, j | 0 <= i < |a| && 0 <= j < |a| && a[i].key == a[j].key ensures a[i].tier == a[j].tier {
      assert (a + b)[i] == a[i] && (a + b)[j] == a[j];
    }
  }

  /** The record `i` of a report is new: its key is neither known nor earlier in the report. */
  ghost predicate New(records: seq<Record>, incoming: seq<Record>, i: nat)
    requires i < |incoming|
  {
    !Knows(records, incoming[i].key) && forall j :: 0 <= j < i ==> incoming[j].key != incoming[i].key
  }

  /** The highest tier of a report survives its merge: the records had it before, or one of
      the report's records of that tier is new. */
  ghost predicate TierKept(records: seq<Record>, incoming: seq<Record>) {
    || TopRank(incoming) <= TopRank(records)
    || exists i :: 0 <= i < |incoming| && incoming[i].tier.Rank() == TopRank(incoming) && New(records, incoming, i)
  }

  /** Adding keeps what was there and adds exactly the new records. */
  lemma AddedAreNew(records: seq<Record>, incoming: seq<Record>)
    ensures var r := AddRecords(records, incoming);
            && (forall i :: 0 <= i < |incoming| && New(records, incoming, i) ==> incoming[i] in r)
            && (forall x :: x in r ==>
                              x in records
                              || exists i :: 0 <= i < |incoming| && incoming[i] == x && New(records, incoming, i))
  {
    AddKeepsFirst(records, incoming);
    var r := AddRecords(records, incoming);
    forall i | 0 <= i < |incoming| && New(records, incoming, i) ensures incoming[i] in r {
      assert Knows(incoming, incoming[i].key);
      var j :| 0 <= j < |r| && r[j].key == incoming[i].key;
      forall l | 0 <= l < |records| ensures r[l].key != incoming[i].key {
        assert r[l] == records[l];
      }
      var k :| 0 <= k < |incoming| && incoming[k] == r[j] && forall l :: 0 <= l < k ==> incoming[l].key != r[j].key;
      assert k == i;
    }
    forall x | x in r && x !in records
      ensures exists i :: 0 <= i < |incoming| && incoming[i] == x && New(records, incoming, i)
    {
      var j :| 0 <= j < |r| && r[j] == x;
      forall l | 0 <= l < |records| ensures r[l] != x {
        assert r[l] == records[l];
      }
      var k :| 0 <= k < |incoming| && incoming[k] == x && forall l :: 0 <= l < k ==> incoming[l].key != x.key;
      forall l | 0 <= l < |records| ensures records[l].key != x.key {
        assert r[l] == records[l];
      }
      assert New(records, incoming, k);
    }
  }

  /** Exactly when a merge remembers the highest tier of both sides. */
  lemma TierKeptIff(records: seq<Record>, incoming: seq<Record>)
    ensures TopRank(AddRecords(records, incoming)) == TopRank(records + incoming) <==> TierKept(records, incoming)
  {
    var r := AddRecords(records, incoming);
    AddedAreNew(records, incoming);
    AddKeepsFirst(records, incoming);
    TopIs(r);
    TopIs(records);
    TopIs(incoming);
    TopAppend(records, incoming);
    assert TopRank(records) <= TopRank(r) by {
      TopMonotone(records, r);
    }
    assert TopRank(r) <= TopRank(records + incoming) by {
      forall x | x in r ensures x in records + incoming {
      }
      TopMonotone(r, records + incoming);
    }
    if TopRank(incoming) > TopRank(records) {
      if exists i :: 0 <= i < |incoming| && incoming[i].tier.Rank() == TopRank(incoming) && New(records, incoming, i) {
        var i :| 0 <= i < |incoming| && incoming[i].tier.Rank() == TopRank(incoming) && New(records, incoming, i);
        var j :| 0 <= j < |r| && r[j] == incoming[i];
        assert r[j].tier.Rank() <= TopRank(r);
      } else if TopRank(r) == TopRank(incoming) {
        TopIsNew(records, incoming);
      }
    }
  }

  lemma TopIsNew(records: seq<Record>, incoming: seq<Record>)
    requires TopRank(records) < TopRank(incoming) == TopRank(AddRecords(records, incoming))
    ensures TierKept(records, incoming)
  {
    var r := AddRecords(records, incoming);
    AddedAreNew(records, incoming);
    TopIs(r);
    TopIs(records);
    var j :| 0 <= j < |r| && r[j].tier.Rank() == TopRank(r);
    forall l | 0 <= l < |records| ensures records[l] != r[j] {
      assert records[l].tier.Rank() <= TopRank(records);
    }
    assert r[j] in r && r[j] !in records;
  }

  lemma TopMonotone(s: seq<Record>, t: seq<Record>)
    requires forall x :: x in s ==> x in t
    ensures TopRank(s) <= TopRank(t)
  {
    TopIs(s);
    TopIs(t);
    if TopRank(s) > 0 {
      var i :| 0 <= i < |s| && s[i].tier.Rank() == TopRank(s);
      assert s[i] in t;
    }
  }

  /** The same for one merge, as the tiers the jobs report. */
  lemma MergeKeepsTierIff(canonical: string -> string, existing: Job, incoming: Job)
    requires Merged(canonical, existing, incoming).Some?
    ensures var m := BestTier(Merged(canonical, existing, incoming).value).Rank();
            && BestTier(existing).Rank() <= m
            && (BestTier(incoming).Rank() <= m <==> TierKept(existing.sources, incoming.sources))
  {
    var x, y := existing.sources, incoming.sources;
    BestTierIsTop(existing);
    BestTierIsTop(incoming);
    BestTierIsTop(Merged(canonical, existing, incoming).value);
    TierKeptIff(x, y);
    TopAppend(x, y);
    AddKeepsFirst(x, y);
    forall r | r in x ensures r in AddRecords(x, y) {
    }
    TopMonotone(x, AddRecords(x, y));
    AddIsFromBoth(x, y);
    TopMonotone(AddRecords(x, y), x + y);
  }

  function Probe(t: Tier): Job {
    Job("", [Record(Key("", ""), t, "", 0.0)], "", "", None, None, None, [], [], 0, 0, [])
  }

  function TierOf(rank: nat): Tier {
    if rank >= 3 then DirectAts else if rank == 2 then EmployerSite else if rank == 1 then Aggregator else Derived
  }

  /** The highest tier is meant to win. Against every further report a fold decides by the
      highest tier ever reported, exactly when that tier was kept: when the first job had it
      or some later record of that tier came with a key not seen before. */
  lemma HighestTierDecidesIff(canonical: string -> string, first: Job, jobs: seq<Job>)
    requires Fold(canonical, first, jobs).Some?
    ensures var f := Fold(canonical, first, jobs).value;
            (forall z :: ExistingWins(f, z) <==> BestTier(z).Rank() <= TopRank(AllSources(first, jobs)))
            <==> TierKept(first.sources, LaterSources(first, jobs))
  {
    var f := Fold(canonical, first, jobs).value;
    var later := LaterSources(first, jobs);
    SourcesOf(canonical, first, jobs);
    BestTierIsTop(f);
    TierKeptIff(first.sources, later);
    var top := TopRank(first.sources + later);
    AddIsFromBoth(first.sources, later);
    TopMonotone(f.sources, first.sources + later);
    if BestTier(f).Rank() < top {
      TopIs(first.sources + later);
      var z := Probe(TierOf(top));
      assert z.sources[..0] == [];
      assert Best(z.sources) == Some(z.sources[0]);
      assert BestTier(z).Rank() == top && !ExistingWins(f, z);
    }
  }

  lemma SingleRecord(r: Record, other: Record)
    ensures Best([r]) == Some(r)
    ensures AddRecords([r], [other]) == if r.key == other.key then [r] else [r, other]
  {
    assert [r][..0] == [] && [other][..0] == [];
    assert Knows([r], other.key) <==> r.key == other.key by {
      assert [r][0] == r;
    }
    assert [r] + [other] == [r, other];
  }

  /** Where the tier is not kept a lower report wins later: the record of a known key is
      dropped together with the tier it was reported under. */
  lemma HigherTierForgotten(canonical: string -> string, x: Job, y: Job, z: Job, a: Record, b: Record, c: Record)
    requires x.sources == [a] && y.sources == [b] && z.sources == [c]
    requires a.key == b.key != c.key && a.tier.Rank() < c.tier.Rank() < b.tier.Rank()
    ensures var m := Merged(canonical, x, y);
            && m.Some? && m.value.title == y.title && Merged(canonical, m.value, z).Some?
            && Merged(canonical, m.value, z).value.title == z.title
  {
    SingleRecord(a, b);
    SingleRecord(b, a);
    SingleRecord(a, c);
    SingleRecord(c, a);
    var m := Merged(canonical, x, y);
    assert m.value.sources == [a];
    BestIs([a, c]);
  }

  /** A merge is meant to lose nothing. A description is lost exactly when the existing job
      wins without having one and the incoming job has one. */
  lemma DescriptionLostIff(canonical: string -> string, existing: Job, incoming: Job)
    requires Merged(canonical, existing, incoming).Some?
    ensures !Present(Merged(canonical, existing, incoming).value.description)
            && (Present(existing.description) || Present(incoming.description))
            <==> ExistingWins(existing, incoming) && !Present(existing.description) && Present(incoming.description)
  {
  }

  /** Title and description are those of the winner: the job with the more trusted best record,
      the existing one if they are equal. A winner without a description leaves the existing. */
  lemma WinnerSpeaks(canonical: string -> string, existing: Job, incoming: Job)
    requires Merged(canonical, existing, incoming).Some?
    ensures var m := Merged(canonical, existing, incoming).value;
            var takes := Above(BestTier(incoming), BestTier(existing));
            && m.title == (if takes then incoming.title else existing.title)
            && m.description ==
               (if takes && Present(incoming.description) then incoming.description else existing.description)
  {
    RankIsTrust(BestTier(incoming), BestTier(existing));
  }
}
