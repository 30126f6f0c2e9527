/** The fit score and its optional enrichment by a model. Scores are real numbers: rounding
    of floating point is not modelled. */
module Scoring {
  import opened Wrappers
  import opened Lists
  import opened Text

  datatype Dimension = Dimension(name: string, score: real, weight: real, confidence: real, adjusted: bool)

  datatype Severity = Hard | Significant | Minor

  datatype Missing = Missing(requirement: string, severity: Severity)

  datatype Recommendation = Apply | Investigate | Skip

  datatype Thresholds = Thresholds(skipBelow: real, minimumFit: real, minimumConfidence: real)

  datatype Score = Score(
    dimensions: seq<Dimension>,
    missing: seq<Missing>,
    uncertainties: seq<string>,
    overall: real,
    confidence: real,
    recommendation: Recommendation)

  datatype Adjustment = Adjustment(dimension: string, delta: real)

  datatype Suggestion = Suggestion(requirement: string, severity: string)

  datatype Response =
    | Unavailable(line: string)
    | Response(adjustments: seq<Adjustment>, missing: seq<Suggestion>, uncertainties: seq<string>)

  const MAX_ADJUSTMENT: real := 0.2
  const HARD_CAP: real := 0.25
  const DEFAULTS: Thresholds := Thresholds(0.3, 0.55, 0.45)
  const WIDE: Thresholds := Thresholds(0.2, 0.4, 0.3)

  // ----- The deterministic part -----

  function Sum(xs: seq<real>): real {
    if xs == [] then 0.0 else Sum(xs[..|xs| - 1]) + xs[|xs| - 1]
  }

  function Weights(ds: seq<Dimension>): seq<real> {
    seq(|ds|, i requires 0 <= i < |ds| => if ds[i].weight > 0.0 then ds[i].weight else 0.0)
  }

  function WeightedScores(ds: seq<Dimension>): seq<real> {
    seq(|ds|, i requires 0 <= i < |ds| => ds[i].score * ds[i].weight)
  }

  function WeightedConfidences(ds: seq<Dimension>): seq<real> {
    seq(|ds|, i requires 0 <= i < |ds| => ds[i].confidence * ds[i].weight)
  }

  function AtMostOne(x: real): real {
    if x < 1.0 then x else 1.0
  }

  function Overall(ds: seq<Dimension>): real {
    var total := Sum(Weights(ds));
    if total <= 0.0 then 0.5 else AtMostOne(Sum(WeightedScores(ds)) / total)
  }

  function Confidence(ds: seq<Dimension>): real {
    var total := Sum(Weights(ds));
    if total <= 0.0 then 0.3 else AtMostOne(Sum(WeightedConfidences(ds)) / total)
  }

  predicate Blocked(missing: seq<Missing>) {
    exists i :: 0 <= i < |missing| && missing[i].severity.Hard?
  }

  function Verdict(t: Thresholds, baseline: real, confidence: real): Recommendation {
    if baseline < t.skipBelow then Skip
    else if baseline >= t.minimumFit && confidence >= t.minimumConfidence then Apply
    else Investigate
  }

  /** A score over these dimensions and blockers, judged by `t`. */
  function Judged(t: Thresholds, ds: seq<Dimension>, missing: seq<Missing>, uncertainties: seq<string>): Score {
    var baseline := Overall(ds);
    if Blocked(missing) then
      Score(ds, missing, uncertainties, if baseline < HARD_CAP then baseline else HARD_CAP, Confidence(ds), Skip)
    else Score(ds, missing, uncertainties, baseline, Confidence(ds), Verdict(t, baseline, Confidence(ds)))
  }

  // ----- The enrichment -----

  function ClampDelta(delta: real): real {
    if delta > MAX_ADJUSTMENT then MAX_ADJUSTMENT else if delta < -MAX_ADJUSTMENT then -MAX_ADJUSTMENT else delta
  }

  function Unit(x: real): real {
    if x > 1.0 then 1.0 else if x < 0.0 then 0.0 else x
  }

  function Nudged(d: Dimension, a: Adjustment): Dimension {
    if d.name == a.dimension then d.(score := Unit(d.score + ClampDelta(a.delta)), adjusted := true) else d
  }

  /** One dimension after all adjustments, in order. */
  function NudgedAll(d: Dimension, adjustments: seq<Adjustment>): Dimension {
    if adjustments == [] then d
    else Nudged(NudgedAll(d, adjustments[..|adjustments| - 1]), adjustments[|adjustments| - 1])
  }

  function Names(ds: seq<Dimension>): (names: seq<string>)
    ensures |names| == |ds| && forall i :: 0 <= i < |ds| ==> names[i] == ds[i].name
  {
    seq(|ds|, i requires 0 <= i < |ds| => ds[i].name)
  }

  /** The last dimension of each name. */
  function ByName(ds: seq<Dimension>): (m: map<string, Dimension>)
    ensures forall n :: n in m <==> n in Names(ds)
    ensures forall n :: n in m ==> m[n].name == n
  {
    if ds == [] then map[]
    else
      var last := ds[|ds| - 1];
      var m := ByName(ds[..|ds| - 1]);
      assert ds == ds[..|ds| - 1] + [last];
      assert Names(ds) == Names(ds[..|ds| - 1]) + [last.name];
      m[last.name := last]
  }

  function Listed(order: seq<string>, m: map<string, Dimension>): (ds: seq<Dimension>)
    requires forall n :: n in order ==> n in m
    ensures |ds| == |order| && forall i :: 0 <= i < |order| ==> ds[i] == m[order[i]]
  {
    seq(|order|, i requires 0 <= i < |order| => m[order[i]])
  }

  function Adjusted(ds: seq<Dimension>, adjustments: seq<Adjustment>): (r: seq<Dimension>)
  {
    var merged := Listed(Distinct(Names(ds)), ByName(ds));
    seq(|merged|, i requires 0 <= i < |merged| => NudgedAll(merged[i], adjustments))
  }

  function SeverityOf(text: string): Severity {
    if Lower(text) == "hard" then Hard else if Lower(text) == "minor" then Minor else Significant
  }

  predicate Present(missing: seq<Missing>, requirement: string) {
    exists i :: 0 <= i < |missing| && Lower(missing[i].requirement) == Lower(requirement)
  }

  /** What the suggestions add; only the requirements there before are compared with. */
  function Additions(existing: seq<Missing>, suggestions: seq<Suggestion>): seq<Missing> {
    if suggestions == [] then []
    else
      var past := Additions(existing, suggestions[..|suggestions| - 1]);
      var s := suggestions[|suggestions| - 1];
      var requirement := Strip(s.requirement);
      if requirement == "" || Present(existing, requirement) then past
      else past + [Missing(requirement, SeverityOf(s.severity))]
  }

  function Enriched(s: Score, r: Response): Score {
    match r
    case Unavailable(line) => s.(uncertainties := s.uncertainties + [line])
    case Response(adjustments, missing, uncertainties) =>
      Judged(DEFAULTS, Adjusted(s.dimensions, adjustments), s.missing + Additions(s.missing, missing),
             Distinct(s.uncertainties + uncertainties))
  }

  // ----- The loops as the source runs them -----

  method ApplyAdjustments(ds: seq<Dimension>, adjustments: seq<Adjustment>) returns (r: seq<Dimension>)
    ensures r == Adjusted(ds, adjustments)
  {
    var order := Distinct(Names(ds));
    var byName := ByName(ds);
    for k := 0 to |adjustments|
      invariant forall n :: n in order <==> n in byName
      invariant forall n :: n in order ==> byName[n] == NudgedAll(ByName(ds)[n], adjustments[..k])
    {
      var a := adjustments[k];
      NudgeKeepsName(ds, adjustments[..k]);
      assert adjustments[..k + 1][..k] == adjustments[..k];
      if a.dimension in byName {
        byName := byName[a.dimension := Nudged(byName[a.dimension], a)];
      }
    }
    assert adjustments[..|adjustments|] == adjustments;
    r := Listed(order, byName);
  }

  lemma NudgeKeepsName(ds: seq<Dimension>, adjustments: seq<Adjustment>)
    ensures forall n :: n in ByName(ds) ==> NudgedAll(ByName(ds)[n], adjustments).name == n
  {
    forall n | n in ByName(ds) ensures NudgedAll(ByName(ds)[n], adjustments).name == n {
      NudgedFields(ByName(ds)[n], adjustments);
    }
  }

  lemma AdditionsStep(existing: seq<Missing>, suggestions: seq<Suggestion>, k: nat)
    requires k < |suggestions|
    ensures var requirement := Strip(suggestions[k].requirement);
            var past := Additions(existing, suggestions[..k]);
            Additions(existing, suggestions[..k + 1])
            == if requirement == "" || Present(existing, requirement) then past
               else past + [Missing(requirement, SeverityOf(suggestions[k].severity))]
  {
    assert suggestions[..k + 1][..k] == suggestions[..k];
  }

  method MergeMissing(existing: seq<Missing>, suggestions: seq<Suggestion>) returns (merged: seq<Missing>)
    ensures merged == existing + Additions(existing, suggestions)
  {
    merged := existing;
    for k := 0 to |suggestions|
      invariant merged == existing + Additions(existing, suggestions[..k])
    {
      AdditionsStep(existing, suggestions, k);
      var requirement := Strip(suggestions[k].requirement);
      if requirement != "" && !Present(existing, requirement) {
        merged := merged + [Missing(requirement, SeverityOf(suggestions[k].severity))];
      }
    }
    assert suggestions[..|suggestions|] == suggestions;
  }

  // ----- What an adjustment can do -----

  /** What the data model guarantees of every dimension. */
  ghost predicate Sound(ds: seq<Dimension>) {
    forall i :: 0 <= i < |ds| ==>
                  0.0 <= ds[i].score <= 1.0 && 0.0 <= ds[i].confidence <= 1.0 && ds[i].weight >= 0.0
  }

  function Mentions(name: string, adjustments: seq<Adjustment>): nat {
    if adjustments == [] then 0
    else
      Mentions(name, adjustments[..|adjustments| - 1])
      + if adjustments[|adjustments| - 1].dimension == name then 1 else 0
  }

  lemma {:induction false} NudgedFields(d: Dimension, adjustments: seq<Adjustment>)
    ensures var n := NudgedAll(d, adjustments);
            n.name == d.name && n.weight == d.weight && n.confidence == d.confidence
  {
    if adjustments != [] {
      NudgedFields(d, adjustments[..|adjustments| - 1]);
    }
  }

  /** Each mention moves a score by at most 0.2, and repeated mentions add up. */
  lemma {:induction false} NudgedMoves(d: Dimension, adjustments: seq<Adjustment>)
    requires 0.0 <= d.score <= 1.0
    ensures var n := NudgedAll(d, adjustments); var k := Mentions(d.name, adjustments) as real;
            0.0 <= n.score <= 1.0 && -0.2 * k <= n.score - d.score <= 0.2 * k
  {
    if adjustments != [] {
      NudgedMoves(d, adjustments[..|adjustments| - 1]);
      NudgedFields(d, adjustments[..|adjustments| - 1]);
    }
  }

  /** The engine scores each dimension once, so nothing is merged away. */
  lemma {:induction false} NothingMerged(ds: seq<Dimension>)
    requires Unrepeated(Names(ds))
    ensures Listed(Distinct(Names(ds)), ByName(ds)) == ds
  {
    DistinctOfUnrepeated(Names(ds));
    forall i | 0 <= i < |ds| ensures ByName(ds)[ds[i].name] == ds[i] {
      ByNameAt(ds, i);
    }
  }

  lemma {:induction false} ByNameAt(ds: seq<Dimension>, i: nat)
    requires Unrepeated(Names(ds)) && i < |ds|
    ensures ds[i].name in ByName(ds) && ByName(ds)[ds[i].name] == ds[i]
  {
    assert Names(ds)[i] == ds[i].name;
    if i < |ds| - 1 {
      var past := ds[..|ds| - 1];
      assert forall j :: 0 <= j < |past| ==> Names(past)[j] == Names(ds)[j];
      ByNameAt(past, i);
      assert Names(ds)[i] != Names(ds)[|ds| - 1];
    }
  }

  /** Pairs of lists that differ in their scores only, each by at most `bound`. */
  ghost predicate Near(a: seq<Dimension>, b: seq<Dimension>, bound: real) {
    && |a| == |b|
    && forall i :: 0 <= i < |a| ==>
         && a[i].weight == b[i].weight && a[i].weight >= 0.0 && a[i].confidence == b[i].confidence
         && -bound <= a[i].score - b[i].score <= bound
  }

  lemma Scaled(x: real, y: real, w: real, bound: real)
    requires w >= 0.0 && -bound <= x - y <= bound
    ensures -(bound * w) <= x * w - y * w <= bound * w
  {
    assert x * w - y * w == (x - y) * w;
  }

  lemma {:induction false} SumsWithin(xs: seq<real>, ys: seq<real>, zs: seq<real>)
    requires |xs| == |ys| == |zs| && forall i :: 0 <= i < |xs| ==> -zs[i] <= xs[i] - ys[i] <= zs[i]
    ensures -Sum(zs) <= Sum(xs) - Sum(ys) <= Sum(zs)
  {
    if xs != [] {
      var n := |xs| - 1;
      SumsWithin(xs[..n], ys[..n], zs[..n]);
    }
  }

  lemma Distributes(x: real, y: real, c: real)
    ensures c * (x + y) == c * x + c * y
  {
  }

  function Times(c: real, xs: seq<real>): (r: seq<real>)
    ensures |r| == |xs|
  {
    if xs == [] then [] else Times(c, xs[..|xs| - 1]) + [c * xs[|xs| - 1]]
  }

  lemma {:induction false} TimesAt(c: real, xs: seq<real>, i: nat)
    requires i < |xs|
    ensures Times(c, xs)[i] == c * xs[i]
  {
    if i < |xs| - 1 {
      TimesAt(c, xs[..|xs| - 1], i);
    }
  }

  lemma {:induction false} SumTimes(c: real, xs: seq<real>)
    ensures Sum(Times(c, xs)) == c * Sum(xs)
  {
    if xs != [] {
      var before, last := xs[..|xs| - 1], xs[|xs| - 1];
      SumTimes(c, before);
      Distributes(Sum(before), last, c);
      assert Times(c, xs)[..|xs| - 1] == Times(c, before);
    }
  }

  lemma ScoreNear(a: seq<Dimension>, b: seq<Dimension>, bound: real, i: nat)
    requires Near(a, b, bound) && i < |a|
    ensures var z := bound * Weights(a)[i]; -z <= WeightedScores(a)[i] - WeightedScores(b)[i] <= z
  {
    Scaled(a[i].score, b[i].score, a[i].weight, bound);
  }

  lemma ScoresNear(a: seq<Dimension>, b: seq<Dimension>, bound: real)
    requires Near(a, b, bound)
    ensures var zs := Times(bound, Weights(a));
            forall i :: 0 <= i < |a| ==> -zs[i] <= WeightedScores(a)[i] - WeightedScores(b)[i] <= zs[i]
  {
    forall i: nat | i < |a|
      ensures var z := Times(bound, Weights(a))[i]; -z <= WeightedScores(a)[i] - WeightedScores(b)[i] <= z
    {
      TimesAt(bound, Weights(a), i);
      ScoreNear(a, b, bound, i);
    }
  }

  lemma TimesTotal(c: real, xs: seq<real>, t: real, z: real)
    requires t == Sum(xs) && z == Sum(Times(c, xs))
    ensures z == c * t
  {
    SumTimes(c, xs);
  }

  lemma Between(d: real, z: real, bound: real, t: real)
    requires -z <= d <= z && z == bound * t
    ensures -(bound * t) <= d <= bound * t
  {
  }

  lemma SumsNear(xs: seq<real>, ys: seq<real>, ws: seq<real>, bound: real, d: real, t: real)
    requires |xs| == |ys| == |ws| && d == Sum(xs) - Sum(ys) && t == Sum(ws)
    requires var zs := Times(bound, ws); forall i :: 0 <= i < |xs| ==> -zs[i] <= xs[i] - ys[i] <= zs[i]
    ensures -(bound * t) <= d <= bound * t
  {
    var z := Sum(Times(bound, ws));
    SumsWithin(xs, ys, Times(bound, ws));
    TimesTotal(bound, ws, t, z);
    Between(d, z, bound, t);
  }

  lemma SameWeights(a: seq<Dimension>, b: seq<Dimension>, bound: real)
    requires Near(a, b, bound)
    ensures Weights(a) == Weights(b) && WeightedConfidences(a) == WeightedConfidences(b)
  {
    forall i | 0 <= i < |a| ensures WeightedConfidences(a)[i] == WeightedConfidences(b)[i] {
      assert a[i].confidence == b[i].confidence && a[i].weight == b[i].weight;
    }
  }

  lemma Averages(x: real, t: real, lo: real, hi: real)
    requires t > 0.0 && lo * t <= x <= hi * t
    ensures lo <= x / t <= hi
  {
    assert (lo * t) / t == lo && (hi * t) / t == hi;
  }

  lemma Divided(x: real, y: real, t: real)
    requires t > 0.0
    ensures x / t - y / t == (x - y) / t
  {
  }

  lemma MeansNear(x: real, y: real, t: real, bound: real)
    requires t > 0.0 && bound >= 0.0 && -(bound * t) <= x - y <= bound * t
    ensures -bound <= AtMostOne(x / t) - AtMostOne(y / t) <= bound
  {
    var p, q := x / t, y / t;
    assert -bound <= p - q <= bound by {
      Divided(x, y, t);
      Averages(x - y, t, -bound, bound);
    }
  }

  lemma OverallNear(a: seq<Dimension>, b: seq<Dimension>, bound: real)
    requires Near(a, b, bound) && bound >= 0.0
    ensures -bound <= Overall(a) - Overall(b) <= bound && Confidence(a) == Confidence(b)
  {
    SameWeights(a, b, bound);
    var x, y, t := Sum(WeightedScores(a)), Sum(WeightedScores(b)), Sum(Weights(a));
    if t > 0.0 {
      var p, q := AtMostOne(x / t), AtMostOne(y / t);
      assert Overall(a) == p && Overall(b) == q;
      assert -bound <= p - q <= bound by {
        ScoresNear(a, b, bound);
        SumsNear(WeightedScores(a), WeightedScores(b), Weights(a), bound, x - y, t);
        MeansNear(x, y, t, bound);
      }
    }
  }

  /** For every response: scores stay in range, the confidence does not move, and the
      weighted baseline moves by at most 0.2 k when no dimension is named more than k
      times. */
  lemma AdjustmentsAreBounded(ds: seq<Dimension>, adjustments: seq<Adjustment>, k: nat)
    requires Sound(ds) && Unrepeated(Names(ds))
    requires forall i :: 0 <= i < |ds| ==> Mentions(ds[i].name, adjustments) <= k
    ensures var n := Adjusted(ds, adjustments);
            && Sound(n) && Names(n) == Names(ds)
            && Confidence(n) == Confidence(ds)
            && -0.2 * k as real <= Overall(n) - Overall(ds) <= 0.2 * k as real
  {
    NothingMerged(ds);
    var n := Adjusted(ds, adjustments);
    forall i | 0 <= i < |ds|
      ensures n[i].name == ds[i].name && n[i].weight == ds[i].weight && n[i].confidence == ds[i].confidence
      ensures 0.0 <= n[i].score <= 1.0 && -0.2 * k as real <= n[i].score - ds[i].score <= 0.2 * k as real
    {
      NudgedFields(ds[i], adjustments);
      NudgedMoves(ds[i], adjustments);
    }
    OverallNear(n, ds, 0.2 * k as real);
  }

  /** `adjustments` name these dimensions, in this order. */
  ghost predicate NamesExactly(adjustments: seq<Adjustment>, names: seq<string>) {
    |adjustments| == |names| && forall i :: 0 <= i < |names| ==> adjustments[i].dimension == names[i]
  }

  /** All adjustments push the same way as hard as they may. */
  function Push(names: seq<string>, delta: real): (r: seq<Adjustment>)
    ensures NamesExactly(r, names)
  {
    seq(|names|, i requires 0 <= i < |names| => Adjustment(names[i], delta))
  }

  lemma {:induction false} PushMoves(d: Dimension, names: seq<string>)
    requires 0.0 <= d.score <= 1.0
    ensures var up := NudgedAll(d, Push(names, 0.2)).score; var k := Mentions(d.name, Push(names, 0.2));
            var x := d.score + 0.2 * k as real; up == if x > 1.0 then 1.0 else x
    ensures var down := NudgedAll(d, Push(names, -0.2)).score; var k := Mentions(d.name, Push(names, -0.2));
            var x := d.score - 0.2 * k as real; down == if x < 0.0 then 0.0 else x
    ensures Mentions(d.name, Push(names, 0.2)) == Mentions(d.name, Push(names, -0.2))
  {
    if names != [] {
      var n := |names| - 1;
      PushMoves(d, names[..n]);
      assert Push(names, 0.2)[..n] == Push(names[..n], 0.2);
      assert Push(names, -0.2)[..n] == Push(names[..n], -0.2);
      NudgedFields(d, Push(names[..n], 0.2));
      NudgedFields(d, Push(names[..n], -0.2));
    }
  }

  lemma {:induction false} SameMentions(name: string, a: seq<Adjustment>, b: seq<Adjustment>, names: seq<string>)
    requires NamesExactly(a, names) && NamesExactly(b, names)
    ensures Mentions(name, a) == Mentions(name, b)
  {
    if names != [] {
      var n := |names| - 1;
      SameMentions(name, a[..n], b[..n], names[..n]);
    }
  }

  /** A dimension is meant to move by at most 0.2. For every list of names that is so, for
      all deltas a model may choose, exactly when the list names the dimension at most once. */
  lemma LimitHoldsIff(d: Dimension, names: seq<string>)
    requires 0.0 <= d.score <= 1.0
    ensures (forall a :: NamesExactly(a, names) ==> -0.2 <= NudgedAll(d, a).score - d.score <= 0.2)
            <==> Mentions(d.name, Push(names, 0.0)) <= 1
  {
    var k := Mentions(d.name, Push(names, 0.0));
    forall a | NamesExactly(a, names) && k <= 1 ensures -0.2 <= NudgedAll(d, a).score - d.score <= 0.2 {
      SameMentions(d.name, a, Push(names, 0.0), names);
      NudgedMoves(d, a);
    }
    if k >= 2 {
      PushMoves(d, names);
      SameMentions(d.name, Push(names, 0.2), Push(names, 0.0), names);
      var a := if d.score <= 0.6 then Push(names, 0.2) else Push(names, -0.2);
      assert 0.2 * k as real >= 0.4;
      assert NamesExactly(a, names) && !(-0.2 <= NudgedAll(d, a).score - d.score <= 0.2);
    }
  }

  /** One dimension named twice moves by twice the limit. */
  lemma RepeatedAdjustmentsAddUp(name: string)
    ensures var d := Dimension(name, 0.5, 1.0, 1.0, false); var a := Adjustment(name, 9.0);
            NudgedAll(d, [a]).score == 0.7 && NudgedAll(d, [a, a]).score == 0.9
  {
    var d := Dimension(name, 0.5, 1.0, 1.0, false);
    var a := Adjustment(name, 9.0);
    assert [a, a][..1] == [a] && [a][..0] == [];
    assert NudgedAll(d, [a]) == Nudged(d, a);
    assert NudgedAll(d, [a, a]) == Nudged(NudgedAll(d, [a]), a);
  }

  /** One adjustment does exactly what it says within its limits: it moves the dimension it
      names by the delta asked for, no further than 0.2 and not out of the unit range, marks
      it as adjusted, and leaves every other dimension alone. */
  lemma NudgedExactly(d: Dimension, a: Adjustment)
    requires 0.0 <= d.score <= 1.0
    ensures var n := Nudged(d, a);
            && n == d.(score := n.score, adjusted := n.adjusted)
            && (d.name != a.dimension ==> n == d)
            && (d.name == a.dimension ==>
                  var step := if a.delta > 0.2 then 0.2 else if a.delta < -0.2 then -0.2 else a.delta;
                  && n.adjusted
                  && (0.0 <= d.score + step <= 1.0 ==> n.score == d.score + step)
                  && (d.score + step > 1.0 ==> n.score == 1.0)
                  && (d.score + step < 0.0 ==> n.score == 0.0))
  {
  }

  /** Adjustments are applied in order, and a dimension is marked if and only if one names it. */
  lemma {:induction false} NudgedInOrder(d: Dimension, before: seq<Adjustment>, after: seq<Adjustment>)
    ensures NudgedAll(d, before + after) == NudgedAll(NudgedAll(d, before), after)
    ensures NudgedAll(d, after).adjusted <==> d.adjusted || Mentions(d.name, after) > 0
    ensures NudgedAll(d, []) == d
    decreases |after|
  {
    if after == [] {
      assert before + after == before;
    } else {
      var n := |after| - 1;
      NudgedInOrder(d, before, after[..n]);
      NudgedFields(d, after[..n]);
      assert (before + after)[..|before + after| - 1] == before + after[..n];
    }
  }

  // ----- Blockers -----

  /** A blocker that was there stays, whatever the model says, and decides the outcome. */
  lemma HardBlockerSurvives(s: Score, r: Response)
    requires Blocked(s.missing) && r.Response?
    ensures var n := Enriched(s, r);
            && s.missing <= n.missing && Blocked(n.missing)
            && n.recommendation == Skip && n.overall <= HARD_CAP
  {
    var n := Enriched(s, r);
    var i :| 0 <= i < |s.missing| && s.missing[i].severity.Hard?;
    assert n.missing[i] == s.missing[i];
  }

  lemma BlockedAppend(a: seq<Missing>, b: seq<Missing>)
    ensures Blocked(a + b) <==> Blocked(a) || Blocked(b)
  {
    var all := a + b;
    assert forall i :: 0 <= i < |a| ==> all[i] == a[i];
    assert forall i :: 0 <= i < |b| ==> b[i] == all[|a| + i];
  }

  /** A suggestion that becomes a blocker: it calls itself hard and names something new. */
  predicate NewBlocker(existing: seq<Missing>, s: Suggestion) {
    Lower(s.severity) == "hard" && Strip(s.requirement) != "" && !Present(existing, Strip(s.requirement))
  }

  /** What a suggestion amounts to: its trimmed text, hard or minor if it says so in any case
      and significant otherwise. */
  ghost predicate Reads(m: Missing, s: Suggestion) {
    && m.requirement == Strip(s.requirement)
    && (m.severity == Hard <==> Lower(s.severity) == "hard")
    && (m.severity == Minor <==> Lower(s.severity) == "minor")
  }

  /** Text is suggested, and no requirement there before has it in any case. */
  ghost predicate Suggests(existing: seq<Missing>, s: Suggestion) {
    Strip(s.requirement) != ""
    && forall i :: 0 <= i < |existing| ==> Lower(existing[i].requirement) != Lower(Strip(s.requirement))
  }

  /** Which suggestions suggest something new. */
  ghost function News(existing: seq<Missing>, suggestions: seq<Suggestion>): (r: seq<bool>)
    ensures |r| == |suggestions|
    ensures forall k :: 0 <= k < |r| ==> (r[k] <==> Suggests(existing, suggestions[k]))
  {
    seq(|suggestions|, k requires 0 <= k < |suggestions| => Suggests(existing, suggestions[k]))
  }

  lemma PresentIs(existing: seq<Missing>, s: Suggestion)
    ensures Suggests(existing, s) <==> Strip(s.requirement) != "" && !Present(existing, Strip(s.requirement))
    ensures Reads(Missing(Strip(s.requirement), SeverityOf(s.severity)), s)
  {
  }

  ghost predicate ReadsAll(added: seq<Missing>, suggestions: seq<Suggestion>, at: seq<nat>) {
    |at| == |added| && forall j :: 0 <= j < |at| ==> at[j] < |suggestions| && Reads(added[j], suggestions[at[j]])
  }

  lemma ReadsMore(added: seq<Missing>, suggestions: seq<Suggestion>, at: seq<nat>, m: Missing)
    requires suggestions != [] && ReadsAll(added, suggestions[..|suggestions| - 1], at)
    ensures ReadsAll(added, suggestions, at)
    ensures Reads(m, suggestions[|suggestions| - 1]) ==> ReadsAll(added + [m], suggestions, at + [|suggestions| - 1])
  {
    forall j | 0 <= j < |at| ensures at[j] < |suggestions| && Reads(added[j], suggestions[at[j]]) {
      assert suggestions[..|suggestions| - 1][at[j]] == suggestions[at[j]];
    }
  }

  lemma NewsStep(existing: seq<Missing>, suggestions: seq<Suggestion>)
    requires suggestions != []
    ensures var n := |suggestions| - 1;
            News(existing, suggestions)
            == News(existing, suggestions[..n]) + [Suggests(existing, suggestions[n])]
  {
  }

  lemma AdditionsLast(existing: seq<Missing>, suggestions: seq<Suggestion>)
    requires suggestions != []
    ensures var s := suggestions[|suggestions| - 1]; var past := Additions(existing, suggestions[..|suggestions| - 1]);
            Additions(existing, suggestions) ==
            if Suggests(existing, s) then past + [Missing(Strip(s.requirement), SeverityOf(s.severity))] else past
  {
    PresentIs(existing, suggestions[|suggestions| - 1]);
  }

  /** The additions are the readings of exactly the suggestions that suggest something new,
      in order. */
  lemma {:induction false} AdditionsAre(existing: seq<Missing>, suggestions: seq<Suggestion>) returns (at: seq<nat>)
    ensures Positions(at, News(existing, suggestions))
    ensures ReadsAll(Additions(existing, suggestions), suggestions, at)
  {
    at := [];
    if suggestions != [] {
      var n := |suggestions| - 1;
      var s := suggestions[n];
      var m := Missing(Strip(s.requirement), SeverityOf(s.severity));
      var before := AdditionsAre(existing, suggestions[..n]);
      var added := Additions(existing, suggestions[..n]);
      var isNew := Suggests(existing, s);
      at := if isNew then before + [n] else before;
      assert Additions(existing, suggestions) == (if isNew then added + [m] else added) by {
        AdditionsLast(existing, suggestions);
      }
      assert Positions(at, News(existing, suggestions)) by {
        NewsStep(existing, suggestions);
        PositionsMore(before, News(existing, suggestions[..n]), isNew);
      }
      assert Reads(m, s) by {
        PresentIs(existing, s);
      }
      ReadsMore(added, suggestions, before, m);
    }
  }

  /** What was there stays, in front; uncertainties are the union of both lists, without
      repeats. */
  lemma EnrichedKeeps(s: Score, r: Response)
    requires r.Response?
    ensures var n := Enriched(s, r);
            && n.missing == s.missing + Additions(s.missing, r.missing)
            && (forall u :: u in n.uncertainties <==> u in s.uncertainties || u in r.uncertainties)
            && (forall i, j :: 0 <= i < j < |n.uncertainties| ==> n.uncertainties[i] != n.uncertainties[j])
  {
  }

  lemma OneBlocks(m: Missing)
    ensures Blocked([m]) <==> m.severity.Hard?
  {
    assert [m][0] == m;
  }

  lemma {:induction false} AddsBlockerIff(existing: seq<Missing>, suggestions: seq<Suggestion>)
    ensures Blocked(Additions(existing, suggestions)) <==>
            exists s :: s in suggestions && NewBlocker(existing, s)
  {
    if suggestions != [] {
      var before, s := suggestions[..|suggestions| - 1], suggestions[|suggestions| - 1];
      assert suggestions == before + [s];
      AddsBlockerIff(existing, before);
      var m := Missing(Strip(s.requirement), SeverityOf(s.severity));
      BlockedAppend(Additions(existing, before), [m]);
      OneBlocks(m);
      assert (exists g :: g in suggestions && NewBlocker(existing, g)) <==>
             (exists g :: g in before && NewBlocker(existing, g)) || NewBlocker(existing, s) by {
        assert s in suggestions && forall g :: g in suggestions <==> g in before || g == s;
      }
    }
  }

  /** The model is meant to have no say in the recommendation. On a score without a blocker
      it can force SKIP by itself exactly by naming a new requirement it calls hard, or by
      moving the baseline below the threshold. */
  lemma ModelForcesSkipIff(s: Score, r: Response)
    requires !Blocked(s.missing) && r.Response?
    ensures Enriched(s, r).recommendation == Skip <==>
            || Overall(Adjusted(s.dimensions, r.adjustments)) < DEFAULTS.skipBelow
            || exists g :: g in r.missing && NewBlocker(s.missing, g)
  {
    AddsBlockerIff(s.missing, r.missing);
    BlockedAppend(s.missing, Additions(s.missing, r.missing));
  }

  // ----- An empty response -----

  lemma EmptyAdjustsNothing(ds: seq<Dimension>)
    requires Unrepeated(Names(ds))
    ensures Adjusted(ds, []) == ds
  {
    NothingMerged(ds);
  }

  /** A response that says nothing keeps the overall score and the confidence, whatever
      thresholds the score was judged by. The recommendation is judged again, by the
      default thresholds: it is kept exactly when a blocker decides or both sets of
      thresholds agree on this baseline. */
  lemma EmptyResponse(t: Thresholds, ds: seq<Dimension>, missing: seq<Missing>, uncertainties: seq<string>)
    requires Unrepeated(Names(ds))
    ensures var s := Judged(t, ds, missing, uncertainties); var n := Enriched(s, Response([], [], []));
            && n.overall == s.overall && n.confidence == s.confidence && n.dimensions == s.dimensions
            && n.missing == s.missing
            && (n.recommendation == s.recommendation <==>
                  || Blocked(missing)
                  || Verdict(t, Overall(ds), Confidence(ds)) == Verdict(DEFAULTS, Overall(ds), Confidence(ds)))
            && (t == DEFAULTS ==> n.recommendation == s.recommendation)
  {
    EmptyAdjustsNothing(ds);
    assert missing + [] == missing;
  }

  /** Under the wide search preset saying nothing can turn an APPLY into INVESTIGATE. */
  lemma EmptyResponseDemotes()
    ensures var d := Dimension("title_match", 0.5, 1.0, 0.5, false);
            var s := Judged(WIDE, [d], [], []);
            s.recommendation == Apply && Enriched(s, Response([], [], [])).recommendation == Investigate
  {
    var d := Dimension("title_match", 0.5, 1.0, 0.5, false);
    assert Weights([d]) == [1.0] && WeightedScores([d]) == [0.5] && WeightedConfidences([d]) == [0.5];
    assert [1.0][..0] == [] && [0.5][..0] == [];
    assert Sum([1.0]) == 1.0 && Sum([0.5]) == 0.5;
    assert Overall([d]) == 0.5 && Confidence([d]) == 0.5;
    EmptyResponse(WIDE, [d], [], []);
  }

  /** An unavailable model costs one line and nothing else. */
  lemma UnavailableKeepsScore(s: Score, line: string)
    ensures Enriched(s, Unavailable(line)).(uncertainties := s.uncertainties) == s
    ensures |Enriched(s, Unavailable(line)).uncertainties| == |s.uncertainties| + 1
  {
  }

  // ----- Range -----

  lemma {:induction false} SumBelow(xs: seq<real>, ws: seq<real>)
    requires |xs| == |ws| && forall i :: 0 <= i < |xs| ==> 0.0 <= xs[i] <= ws[i]
    ensures 0.0 <= Sum(xs) <= Sum(ws)
  {
    if xs != [] {
      SumBelow(xs[..|xs| - 1], ws[..|ws| - 1]);
    }
  }

  lemma ScoreInRange(ds: seq<Dimension>, i: nat)
    requires Sound(ds) && i < |ds|
    ensures 0.0 <= WeightedScores(ds)[i] <= Weights(ds)[i]
  {
    var d := ds[i];
    var p := d.score * d.weight;
    assert 0.0 <= p <= d.weight by {
      Part(d.score, d.weight);
    }
    assert WeightedScores(ds)[i] == p;
    assert Weights(ds)[i] == d.weight;
  }

  lemma ConfidenceInRange(ds: seq<Dimension>, i: nat)
    requires Sound(ds) && i < |ds|
    ensures 0.0 <= WeightedConfidences(ds)[i] <= Weights(ds)[i]
  {
    var d := ds[i];
    var p := d.confidence * d.weight;
    assert 0.0 <= p <= d.weight by {
      Part(d.confidence, d.weight);
    }
    assert WeightedConfidences(ds)[i] == p;
    assert Weights(ds)[i] == d.weight;
  }

  lemma SumsInRange(ds: seq<Dimension>)
    requires Sound(ds)
    ensures 0.0 <= Sum(WeightedScores(ds)) <= Sum(Weights(ds))
    ensures 0.0 <= Sum(WeightedConfidences(ds)) <= Sum(Weights(ds))
  {
    forall i: nat | i < |ds|
      ensures 0.0 <= WeightedScores(ds)[i] <= Weights(ds)[i] && 0.0 <= WeightedConfidences(ds)[i] <= Weights(ds)[i]
    {
      ScoreInRange(ds, i);
      ConfidenceInRange(ds, i);
    }
    SumBelow(WeightedScores(ds), Weights(ds));
    SumBelow(WeightedConfidences(ds), Weights(ds));
  }

  lemma Part(x: real, w: real)
    requires 0.0 <= x <= 1.0 && w >= 0.0
    ensures 0.0 <= x * w <= w
  {
  }

  lemma Quotient(x: real, t: real)
    requires 0.0 <= x <= t && t > 0.0
    ensures 0.0 <= x / t <= 1.0
  {
  }

  /** Every score ever produced is between zero and one, and a blocked one at most 0.25
      with the recommendation to skip. */
  lemma JudgedInRange(t: Thresholds, ds: seq<Dimension>, missing: seq<Missing>, uncertainties: seq<string>)
    requires Sound(ds)
    ensures var s := Judged(t, ds, missing, uncertainties);
            && 0.0 <= s.overall <= 1.0 && 0.0 <= s.confidence <= 1.0
            && (Blocked(missing) ==> s.overall <= HARD_CAP && s.recommendation == Skip)
  {
    SumsInRange(ds);
    var t := Sum(Weights(ds));
    if t > 0.0 {
      Quotient(Sum(WeightedScores(ds)), t);
      Quotient(Sum(WeightedConfidences(ds)), t);
    }
  }

  lemma {:induction false} SumMonotone(xs: seq<real>, ys: seq<real>)
    requires |xs| == |ys| && forall i :: 0 <= i < |xs| ==> xs[i] <= ys[i]
    ensures Sum(xs) <= Sum(ys)
  {
    if xs != [] {
      SumMonotone(xs[..|xs| - 1], ys[..|ys| - 1]);
    }
  }

  lemma ScaledBetween(lo: real, x: real, hi: real, w: real)
    requires lo <= x <= hi && w >= 0.0
    ensures lo * w <= x * w <= hi * w
  {
  }

  lemma ScoreBetween(ds: seq<Dimension>, i: nat, lo: real, hi: real)
    requires Sound(ds) && i < |ds| && lo <= ds[i].score <= hi
    ensures lo * Weights(ds)[i] <= WeightedScores(ds)[i] <= hi * Weights(ds)[i]
  {
    var d := ds[i];
    var p := d.score * d.weight;
    assert lo * d.weight <= p <= hi * d.weight by {
      ScaledBetween(lo, d.score, hi, d.weight);
    }
    assert WeightedScores(ds)[i] == p;
    assert Weights(ds)[i] == d.weight;
  }

  lemma SumAtLeast(ds: seq<Dimension>, c: real)
    requires Sound(ds) && forall i :: 0 <= i < |ds| ==> c <= ds[i].score
    ensures c * Sum(Weights(ds)) <= Sum(WeightedScores(ds))
  {
    var cs, xs := Times(c, Weights(ds)), WeightedScores(ds);
    forall i: nat | i < |ds| ensures cs[i] <= xs[i] {
      TimesAt(c, Weights(ds), i);
      ScoreBetween(ds, i, c, ds[i].score);
    }
    SumMonotone(cs, xs);
    SumTimes(c, Weights(ds));
  }

  lemma SumAtMost(ds: seq<Dimension>, c: real)
    requires Sound(ds) && forall i :: 0 <= i < |ds| ==> ds[i].score <= c
    ensures Sum(WeightedScores(ds)) <= c * Sum(Weights(ds))
  {
    var cs, xs := Times(c, Weights(ds)), WeightedScores(ds);
    forall i: nat | i < |ds| ensures xs[i] <= cs[i] {
      TimesAt(c, Weights(ds), i);
      ScoreBetween(ds, i, ds[i].score, c);
    }
    SumMonotone(xs, cs);
    SumTimes(c, Weights(ds));
  }

  lemma MeanOf(x: real, t: real, lo: real, hi: real)
    requires t > 0.0 && lo * t <= x <= hi * t && 0.0 <= x <= t
    ensures lo <= AtMostOne(x / t) <= hi
  {
    Averages(x, t, lo, hi);
    Quotient(x, t);
  }

  lemma SumWithin(ds: seq<Dimension>, lo: real, hi: real, x: real, t: real)
    requires Sound(ds) && x == Sum(WeightedScores(ds)) && t == Sum(Weights(ds))
    requires forall i :: 0 <= i < |ds| ==> lo <= ds[i].score <= hi
    ensures lo * t <= x <= hi * t && 0.0 <= x <= t
  {
    SumAtLeast(ds, lo);
    SumAtMost(ds, hi);
    SumsInRange(ds);
  }

  /** The baseline is a mean: as soon as any dimension has weight it lies between any bounds
      all the scores keep. */
  lemma BaselineIsAMean(ds: seq<Dimension>, lo: real, hi: real)
    requires Sound(ds) && Sum(Weights(ds)) > 0.0
    requires forall i :: 0 <= i < |ds| ==> lo <= ds[i].score <= hi
    ensures lo <= Overall(ds) <= hi
  {
    var x, t := Sum(WeightedScores(ds)), Sum(Weights(ds));
    var mean := AtMostOne(x / t);
    assert Overall(ds) == mean;
    assert lo <= mean <= hi by {
      SumWithin(ds, lo, hi, x, t);
      MeanOf(x, t, lo, hi);
    }
  }

  // ----- The recommendation -----

  ghost predicate HasHard(missing: seq<Missing>) {
    exists i :: 0 <= i < |missing| && missing[i].severity == Hard
  }

  /** APPLY needs a score and a confidence that both reach their minimum and no hard blocker;
      a hard blocker or a score below the threshold means SKIP; everything in between is to be
      investigated. A blocker caps the score at a quarter, and nothing else touches it. */
  lemma RecommendedIff(t: Thresholds, ds: seq<Dimension>, missing: seq<Missing>, uncertainties: seq<string>)
    ensures var s := Judged(t, ds, missing, uncertainties); var x := Overall(ds);
            && (s.recommendation == Apply <==>
                  !HasHard(missing) && x >= t.skipBelow && x >= t.minimumFit && Confidence(ds) >= t.minimumConfidence)
            && (s.recommendation == Skip <==> HasHard(missing) || x < t.skipBelow)
            && s.overall == (if HasHard(missing) && x > 0.25 then 0.25 else x)
            && s.confidence == Confidence(ds)
            && s.dimensions == ds && s.missing == missing && s.uncertainties == uncertainties
  {
  }

  /** After a response of the model the limits are fixed ones, whatever the search asked for. */
  lemma RejudgedIff(s: Score, r: Response)
    requires r.Response?
    ensures var n := Enriched(s, r); var x := Overall(n.dimensions);
            && (n.recommendation == Apply <==>
                  !HasHard(n.missing) && x >= 0.55 && Confidence(n.dimensions) >= 0.45)
            && (n.recommendation == Skip <==> HasHard(n.missing) || x < 0.3)
            && n.overall == (if HasHard(n.missing) && x > 0.25 then 0.25 else x)
  {
    RecommendedIff(DEFAULTS, Adjusted(s.dimensions, r.adjustments), s.missing + Additions(s.missing, r.missing),
                   Distinct(s.uncertainties + r.uncertainties));
  }

  lemma Restored(x: real, t: real)
    requires 0.0 <= x <= t && t > 0.0
    ensures AtMostOne(x / t) * t == x
  {
    assert x / t * t == x;
    Quotient(x, t);
  }

  /** Baseline and confidence are the weighted means; without any weight they are one half
      and 0.3. Neither is ever above one. */
  lemma MeansAre(ds: seq<Dimension>)
    ensures Overall(ds) <= 1.0 && Confidence(ds) <= 1.0
    ensures Sum(Weights(ds)) <= 0.0 ==> Overall(ds) == 0.5 && Confidence(ds) == 0.3
    ensures Sound(ds) && Sum(Weights(ds)) > 0.0 ==>
              && MeanIs(Overall(ds), Sum(WeightedScores(ds)), Sum(Weights(ds)))
              && MeanIs(Confidence(ds), Sum(WeightedConfidences(ds)), Sum(Weights(ds)))
  {
    var t := Sum(Weights(ds));
    if Sound(ds) && t > 0.0 {
      SumsInRange(ds);
      Restored(Sum(WeightedScores(ds)), t);
      Restored(Sum(WeightedConfidences(ds)), t);
    }
  }

  ghost predicate MeanIs(m: real, total: real, weight: real) {
    m * weight == total
  }
}
