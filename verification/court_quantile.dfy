/** The arc-length weighted 95th percentile of line distances, and the support fraction. */
module CourtQuantile {
  import opened Common

  datatype Sample = Sample(distance: real, weight: real)

  const QUANTILE: real := 0.95

  ghost predicate Weighted(s: seq<Sample>) { forall i :: 0 <= i < |s| ==> s[i].weight >= 0.0 }

  function Total(s: seq<Sample>): real {
    if s == [] then 0.0 else Total(s[..|s| - 1]) + s[|s| - 1].weight
  }

  /** The weight of the samples no farther than d. */
  function Within(s: seq<Sample>, d: real): real {
    if s == [] then 0.0
    else Within(s[..|s| - 1], d) + if s[|s| - 1].distance <= d then s[|s| - 1].weight else 0.0
  }

  ghost predicate Ascending(s: seq<Sample>) { forall i, j :: 0 <= i < j < |s| ==> s[i].distance <= s[j].distance }

  /** Stable insertion, from the right. */
  function Insert(s: seq<Sample>, x: Sample): (r: seq<Sample>)
    ensures |r| == |s| + 1
  {
    if s == [] || s[|s| - 1].distance <= x.distance then s + [x]
    else Insert(s[..|s| - 1], x) + [s[|s| - 1]]
  }

  function Sorted(s: seq<Sample>): (r: seq<Sample>)
    ensures |r| == |s|
  {
    if s == [] then [] else Insert(Sorted(s[..|s| - 1]), s[|s| - 1])
  }

  lemma {:induction false} InsertKeeps(s: seq<Sample>, x: Sample, d: real)
    ensures Total(Insert(s, x)) == Total(s) + x.weight
    ensures Within(Insert(s, x), d) == Within(s, d) + if x.distance <= d then x.weight else 0.0
  {
    var r := Insert(s, x);
    if s == [] || s[|s| - 1].distance <= x.distance {
      assert r[..|s|] == s;
    } else {
      var init := s[..|s| - 1];
      InsertKeeps(init, x, d);
      assert r[..|s|] == Insert(init, x);
    }
  }

  lemma {:induction false} InsertHolds(s: seq<Sample>, x: Sample)
    ensures multiset(Insert(s, x)) == multiset(s) + multiset{x}
  {
    if s != [] {
      assert s == s[..|s| - 1] + [s[|s| - 1]];
      InsertHolds(s[..|s| - 1], x);
    }
  }

  lemma {:induction false} InsertSorts(s: seq<Sample>, x: Sample)
    requires Ascending(s)
    ensures Ascending(Insert(s, x))
  {
    if s != [] && s[|s| - 1].distance > x.distance {
      var init := s[..|s| - 1];
      var r := Insert(init, x);
      InsertSorts(init, x);
      InsertHolds(init, x);
      forall i | 0 <= i < |r| ensures r[i].distance <= s[|s| - 1].distance {
        assert r[i] in multiset(r);
        assert r[i] == x || r[i] in init;
      }
    }
  }

  lemma {:induction false} SortingKeeps(s: seq<Sample>, d: real)
    ensures Total(Sorted(s)) == Total(s) && Within(Sorted(s), d) == Within(s, d)
  {
    if s != [] {
      hide Insert;
      SortingKeeps(s[..|s| - 1], d);
      InsertKeeps(Sorted(s[..|s| - 1]), s[|s| - 1], d);
    }
  }

  lemma {:induction false} SortingPermutes(s: seq<Sample>)
    ensures multiset(Sorted(s)) == multiset(s) && Ascending(Sorted(s))
  {
    if s != [] {
      hide Insert, Ascending;
      var init := s[..|s| - 1];
      SortingPermutes(init);
      InsertHolds(Sorted(init), s[|s| - 1]);
      InsertSorts(Sorted(init), s[|s| - 1]);
      assert s == init + [s[|s| - 1]];
    }
  }

  lemma {:induction false} WithinBounds(s: seq<Sample>, d: real, e: real)
    requires Weighted(s)
    ensures 0.0 <= Within(s, d) <= Total(s)
    ensures d <= e ==> Within(s, d) <= Within(s, e)
    ensures (forall i :: 0 <= i < |s| ==> s[i].distance <= d) ==> Within(s, d) == Total(s)
  {
    if s != [] { WithinBounds(s[..|s| - 1], d, e); }
  }

  /** Up to a place in ascending order, the cumulative weight is at most the weight within. */
  lemma {:induction false} CumulativeWithin(s: seq<Sample>, i: nat, d: real)
    requires Weighted(s) && Ascending(s) && i <= |s|
    ensures (forall j :: 0 <= j < i ==> s[j].distance <= d) ==> Total(s[..i]) <= Within(s, d)
    ensures (forall j :: i <= j < |s| ==> s[j].distance > d) ==> Within(s, d) <= Total(s[..i])
  {
    if i == |s| {
      assert s[..i] == s;
      WithinBounds(s, d, d);
    } else {
      var init := s[..|s| - 1];
      assert init[..i] == s[..i];
      CumulativeWithin(init, i, d);
      assert forall j :: i <= j < |init| ==> init[j] == s[j];
    }
  }

  /** A distance that covers the quantile exactly from itself on: the least such sample. */
  ghost predicate IsP95(samples: seq<Sample>, p95: real) {
    (exists i :: 0 <= i < |samples| && samples[i].distance == p95)
    && forall d :: p95 <= d <==> Within(samples, d) >= QUANTILE * Total(samples)
  }

  /** The weighted p95: sorts by distance and takes the first sample at which the cumulative share
      of the weight reaches 0.95; `None` stands for the error raised when there is no weight. */
  method WeightedP95(samples: seq<Sample>) returns (p95: Option<real>)
    requires Weighted(samples)
    ensures p95.None? <==> Total(samples) == 0.0
    ensures p95.Some? ==> IsP95(samples, p95.value)
  {
    hide Sorted, Within, IsP95;
    WithinBounds(samples, 0.0, 0.0);
    var total := Total(samples);
    if total == 0.0 {
      return None;
    }
    var order := Sorted(samples);
    SortedSamples(samples);
    assert order[..|order|] == order && order[..0] == [];
    var cumulative := 0.0;
    var index := 0;
    Share(0.0, total);
    Share(total, total);
    while index < |order| && (cumulative + order[index].weight) / total < QUANTILE
      invariant 0 <= index <= |order|
      invariant cumulative == Total(order[..index])
      invariant cumulative < QUANTILE * total
    {
      Cumulative(order, index);
      Share(cumulative + order[index].weight, total);
      cumulative := cumulative + order[index].weight;
      index := index + 1;
    }
    assert index < |order|;
    Cumulative(order, index);
    Share(cumulative + order[index].weight, total);
    LeastCovering(samples, order, index);
    return Some(order[index].distance);
  }

  lemma Cumulative(s: seq<Sample>, i: nat)
    requires i < |s|
    ensures Total(s[..i + 1]) == Total(s[..i]) + s[i].weight
  {
    assert s[..i + 1][..i] == s[..i];
  }

  lemma Share(part: real, total: real)
    requires total > 0.0
    ensures part / total < QUANTILE <==> part < QUANTILE * total
  {
    assert part == (part / total) * total;
    if part / total < QUANTILE { assert (part / total) * total < QUANTILE * total; }
    else { assert (part / total) * total >= QUANTILE * total; }
  }

  lemma SortedSamples(samples: seq<Sample>)
    requires Weighted(samples)
    ensures var order := Sorted(samples);
            Weighted(order) && Ascending(order) && Total(order) == Total(samples)
            && (forall x :: x in order <==> x in samples) && (forall d :: Within(order, d) == Within(samples, d))
  {
    hide Sorted, Ascending, Within, Total;
    var order := Sorted(samples);
    forall d ensures Within(order, d) == Within(samples, d) { SortingKeeps(samples, d); }
    SortingKeeps(samples, 0.0);
    SortingPermutes(samples);
    forall x ensures x in order <==> x in samples { assert x in multiset(order) <==> x in multiset(samples); }
    forall i | 0 <= i < |order| ensures order[i].weight >= 0.0 { assert order[i] in samples; }
  }

  /** The first place where the cumulative weight reaches the quantile holds the least distance that
      covers the quantile. */
  lemma LeastCovering(samples: seq<Sample>, order: seq<Sample>, index: nat)
    requires Weighted(order) && Ascending(order) && index < |order| && Total(order) == Total(samples)
    requires forall d :: Within(order, d) == Within(samples, d)
    requires Total(order[..index + 1]) >= QUANTILE * Total(samples) > Total(order[..index])
    requires order[index] in samples
    ensures IsP95(samples, order[index].distance)
  {
    var i :| 0 <= i < |samples| && samples[i] == order[index];
    forall d ensures order[index].distance <= d <==> Within(samples, d) >= QUANTILE * Total(samples) {
      assert Within(order, d) == Within(samples, d);
      if order[index].distance <= d {
        CumulativeWithin(order, index + 1, d);
      } else {
        CumulativeWithin(order, index, d);
      }
    }
  }

  function Support(samples: seq<Sample>, tolerance: real): real
    requires Total(samples) > 0.0
  {
    Within(samples, tolerance) / Total(samples)
  }

  /** p95 within tolerance means exactly a support of at least 0.95; a support below 0.70 therefore
      always comes with p95 beyond tolerance. */
  lemma P95WithinMeansSupport(samples: seq<Sample>, p95: real, tolerance: real)
    requires Weighted(samples) && Total(samples) > 0.0 && IsP95(samples, p95)
    ensures p95 <= tolerance <==> Support(samples, tolerance) >= QUANTILE
    ensures 0.0 <= Support(samples, tolerance) <= 1.0
  {
    Share(Within(samples, tolerance), Total(samples));
    WithinBounds(samples, tolerance, tolerance);
    ShareBounds(Within(samples, tolerance), Total(samples));
  }

  lemma ShareBounds(part: real, total: real)
    requires 0.0 <= part <= total && total > 0.0
    ensures 0.0 <= part / total <= 1.0
  {
    var q := part / total;
    assert q * total == part;
    assert q > 1.0 ==> (q - 1.0) * total > 0.0;
    assert q < 0.0 ==> q * total < 0.0;
  }
}
