/** Coverage of a projected court line by its labelled runs. Positions are integers in units of 1/D
    of the line, so every rational configuration is covered by some D. */
module CourtSweep {

  /** The sorted projections of a run's two endpoints, not clipped yet. */
  datatype Interval = Interval(lo: int, hi: int)

  predicate Proper(i: Interval) { i.lo <= i.hi }

  /** `(max(0, lo), min(1, hi))`; outside the line the result is inverted. */
  function Clip(i: Interval, D: nat): Interval {
    Interval(if i.lo < 0 then 0 else i.lo, if i.hi > D then D else i.hi)
  }

  predicate Before(a: Interval, b: Interval) { a.lo < b.lo || (a.lo == b.lo && a.hi <= b.hi) }

  ghost predicate SortedIntervals(s: seq<Interval>) {
    forall i, j :: 0 <= i < j < |s| ==> Before(s[i], s[j])
  }

  function Insert(x: Interval, s: seq<Interval>): (r: seq<Interval>)
    ensures multiset(r) == multiset{x} + multiset(s)
  {
    if s == [] || Before(x, s[0]) then [x] + s
    else
      assert s == [s[0]] + s[1..];
      [s[0]] + Insert(x, s[1..])
  }

  lemma {:induction false} InsertSorts(x: Interval, s: seq<Interval>)
    requires SortedIntervals(s)
    ensures SortedIntervals(Insert(x, s))
  {
    if s != [] && !Before(x, s[0]) {
      InsertSorts(x, s[1..]);
      var rest := Insert(x, s[1..]);
      forall i | 0 <= i < |rest| ensures Before(s[0], rest[i]) {
        assert rest[i] in multiset(rest);
      }
    }
  }

  function Sorted(s: seq<Interval>): (r: seq<Interval>)
    ensures multiset(r) == multiset(s)
  {
    if s == [] then []
    else
      assert s == [s[0]] + s[1..];
      Insert(s[0], Sorted(s[1..]))
  }

  lemma {:induction false} SortedIsSorted(s: seq<Interval>)
    ensures SortedIntervals(Sorted(s))
  {
    if s != [] {
      SortedIsSorted(s[1..]);
      InsertSorts(s[0], Sorted(s[1..]));
    }
  }

  predicate Holds(i: Interval, k: int) { i.lo <= k < i.hi }

  ghost predicate SomeHolds(s: seq<Interval>, k: int) { exists i :: 0 <= i < |s| && Holds(s[i], k) }

  /** The cells of the line that some interval covers: the measure of their union is their number. */
  ghost function Covered(s: seq<Interval>, D: nat): set<int> {
    set k: int | 0 <= k < D && SomeHolds(s, k)
  }

  function Range(a: int, b: int): (r: set<int>)
    ensures |r| == if a < b then b - a else 0
    ensures forall k :: k in r <==> a <= k < b
    decreases b - a
  {
    if a >= b then {} else Range(a, b - 1) + {b - 1}
  }

  lemma Disjoint(p: set<int>, q: set<int>)
    requires p !! q
    ensures |p + q| == |p| + |q|
  {}

  function Max(a: int, b: int): int { if a < b then b else a }

  /** What one step of the sweep adds. */
  lemma SweepStep(s: seq<Interval>, x: Interval, D: nat, end: int)
    requires 0 <= end <= D && 0 <= x.lo && x.hi <= D
    requires forall k :: k in Covered(s, D) ==> k < end
    requires forall k :: x.lo <= k < end ==> k in Covered(s, D)
    ensures |Covered(s + [x], D)| == |Covered(s, D)| + if x.hi > Max(x.lo, end) then x.hi - Max(x.lo, end) else 0
    ensures forall k :: k in Covered(s + [x], D) <==> k in Covered(s, D) || Holds(x, k)
  {
    var longer := s + [x];
    forall k ensures k in Covered(longer, D) <==> k in Covered(s, D) || Holds(x, k) {
      if k in Covered(s, D) {
        var i :| 0 <= i < |s| && Holds(s[i], k);
        assert Holds(longer[i], k);
      }
      if Holds(x, k) { assert Holds(longer[|s|], k); }
    }
    var added := Range(Max(x.lo, end), x.hi);
    assert Covered(longer, D) == Covered(s, D) + added;
    Disjoint(Covered(s, D), added);
  }

  function Clipped(runs: seq<Interval>, D: nat): (r: seq<Interval>)
    ensures |r| == |runs| && forall i :: 0 <= i < |r| ==> r[i] == Clip(runs[i], D)
  {
    seq(|runs|, i requires 0 <= i < |runs| => Clip(runs[i], D))
  }

  /** The sweep of `line_metrics`: whatever the number, order and overlap of the runs, and however
      far they stick out of the line, the sum is the measure of their union within the line. */
  method Coverage(runs: seq<Interval>, D: nat) returns (coverage: int)
    requires forall i :: 0 <= i < |runs| ==> Proper(runs[i])
    ensures coverage == |Covered(runs, D)|
    ensures 0 <= coverage <= D
  {
    hide Covered, Sorted;
    var intervals := Sorted(Clipped(runs, D));
    SortedFacts(runs, D);
    SortedIsSorted(Clipped(runs, D));
    var previousEnd := 0;
    coverage := 0;
    assert |Covered([], D)| == 0 by { NothingCovered(D); }
    for i := 0 to |intervals|
      invariant 0 <= previousEnd <= D
      invariant coverage == |Covered(intervals[..i], D)| && Reaches(intervals[..i], D, previousEnd)
    {
      var x := intervals[i];
      assert intervals[..i] + [x] == intervals[..i + 1];
      SweepOn(intervals[..i], x, D, previousEnd);
      if x.hi > Max(x.lo, previousEnd) {
        coverage := coverage + (x.hi - Max(x.lo, previousEnd));
      }
      previousEnd := Max(previousEnd, x.hi);
    }
    assert intervals[..|intervals|] == intervals;
    CoveredFits(runs, D);
  }

  lemma NothingCovered(D: nat)
    ensures Covered([], D) == {}
  {}

  /** How far the swept intervals reach: no covered cell lies beyond, and the end is some right end. */
  ghost predicate Reaches(s: seq<Interval>, D: nat, end: int) {
    (forall k :: k in Covered(s, D) ==> k < end) && (end == 0 || exists j :: 0 <= j < |s| && s[j].hi == end)
  }

  lemma SweepOn(s: seq<Interval>, x: Interval, D: nat, end: int)
    requires SortedIntervals(s + [x]) && Reaches(s, D, end) && 0 <= end <= D && 0 <= x.lo && x.hi <= D
    ensures |Covered(s + [x], D)| == |Covered(s, D)| + if x.hi > Max(x.lo, end) then x.hi - Max(x.lo, end) else 0
    ensures Reaches(s + [x], D, Max(end, x.hi))
  {
    forall k | x.lo <= k < end ensures k in Covered(s, D) {
      var j :| 0 <= j < |s| && s[j].hi == end;
      assert Before((s + [x])[j], (s + [x])[|s|]);
      assert Holds(s[j], k);
    }
    SweepStep(s, x, D, end);
    hide Covered, SortedIntervals;
    if end < x.hi { assert (s + [x])[|s|].hi == x.hi; }
    else if end != 0 {
      var j :| 0 <= j < |s| && s[j].hi == end;
      assert (s + [x])[j].hi == end;
    }
  }

  lemma CoveredFits(runs: seq<Interval>, D: nat)
    ensures |Covered(runs, D)| <= D
  {
    var all := Range(0, D);
    assert Covered(runs, D) <= all;
    CoveredSubset(Covered(runs, D), all);
  }

  lemma CoveredSubset(p: set<int>, q: set<int>)
    requires p <= q
    ensures |p| <= |q|
  {
    assert q == p + (q - p);
    Disjoint(p, q - p);
  }

  /** Clipping and sorting change neither the bounds nor the union. */
  lemma SortedFacts(runs: seq<Interval>, D: nat)
    ensures var s := Sorted(Clipped(runs, D));
            |s| == |runs| && Covered(s, D) == Covered(runs, D) && forall i :: 0 <= i < |s| ==>
              0 <= s[i].lo && s[i].hi <= D
  {
    var c := Clipped(runs, D);
    var s := Sorted(c);
    assert |s| == |multiset(s)| && |c| == |multiset(c)|;
    forall x ensures x in s <==> x in c {
      assert x in multiset(s) <==> x in multiset(c);
    }
    forall k ensures k in Covered(s, D) <==> k in Covered(runs, D) {
      if k in Covered(s, D) {
        var i :| 0 <= i < |s| && Holds(s[i], k);
        assert s[i] in c;
        var j :| 0 <= j < |c| && c[j] == s[i];
        assert Holds(runs[j], k);
      }
      if k in Covered(runs, D) {
        var j :| 0 <= j < |runs| && Holds(runs[j], k);
        assert c[j] in s;
        var i :| 0 <= i < |s| && s[i] == c[j];
        assert Holds(s[i], k);
      }
    }
    forall i | 0 <= i < |s| ensures 0 <= s[i].lo && s[i].hi <= D {
      assert s[i] in c;
    }
  }
}
