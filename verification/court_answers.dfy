/** The verdict and its reasons in the numbers of the frame. */
module CourtAnswers {
  import opened Common
  import opened CourtVerdict

  predicate VisibleAt(f: Frame, i: nat) { i < |f.keypoints| && f.keypoints[i].Some? }

  function VisibleOnes(f: Frame): set<nat> { set i: nat | 0 <= i < |f.keypoints| && VisibleAt(f, i) }

  lemma {:induction false} VisibleCounts(f: Frame, n: nat)
    requires n <= |f.keypoints|
    ensures Visible(f.keypoints[..n]) == |set i: nat | 0 <= i < n && VisibleAt(f, i)|
  {
    if n > 0 {
      VisibleCounts(f, n - 1);
      assert f.keypoints[..n][..n - 1] == f.keypoints[..n - 1];
      var before := set i: nat | 0 <= i < n - 1 && VisibleAt(f, i);
      var after := set i: nat | 0 <= i < n && VisibleAt(f, i);
      assert after == if VisibleAt(f, n - 1) then before + {n - 1} else before;
    }
  }

  lemma AllCounted(f: Frame)
    ensures Visible(f.keypoints) == |VisibleOnes(f)|
  {
    VisibleCounts(f, |f.keypoints|);
    assert f.keypoints[..|f.keypoints|] == f.keypoints;
  }

  /** A keypoint is further off than the tolerance and the uncertainty of its label together. */
  predicate PointIsOff(f: Frame, i: nat) {
    VisibleAt(f, i) && f.keypoints[i].value.error - f.keypoints[i].value.uncertainty > f.tolerance
  }

  predicate LineIsOff(f: Frame, i: nat) {
    i < |f.lines| && f.lines[i].metric.Some? && f.lines[i].metric.value.p95 - f.lines[i].uncertainty > f.tolerance
  }

  /** Too little of a required line was projected into the frame or lies close to its label. */
  predicate LineIsThin(f: Frame, i: nat) {
    i < 6 && i < |f.lines|
    && (f.lines[i].metric == None || f.lines[i].metric.value.coverage < 0.3 || f.lines[i].metric.value.support < 0.7)
  }

  /** What each reason says of the numbers: the tolerance, 6 of 12 keypoints with the 4 corners, 6 required lines of
      8, a coverage of 30%, a support of 70%, and half a foot. */
  ghost predicate Says(f: Frame, r: Reason) {
    match r
    case KeypointMisaligned(i) => PointIsOff(f, i)
    case LineMisaligned(i) => LineIsOff(f, i)
    case PartialTarget => !f.fullySupported
    case InsufficientKeypoints => |VisibleOnes(f)| < 6 || !({0, 1, 2, 3} <= VisibleOnes(f))
    case InsufficientLineSupport(i) => LineIsThin(f, i)
    case UncertaintyTooLarge =>
      (exists i: nat :: VisibleAt(f, i) && f.keypoints[i].value.uncertainty > f.tolerance)
      || (exists i: nat :: i < 6 && i < |f.lines| && f.lines[i].uncertainty > f.tolerance)
    case ProjectionError => exists i: nat :: VisibleAt(f, i) && f.keypoints[i].value.error > f.tolerance
    case LineError =>
      exists i: nat :: i < |f.lines| && f.lines[i].metric.Some? && f.lines[i].metric.value.p95 > f.tolerance
    case CourtError => f.feetP95.Some? && f.feetP95.value > 0.5
  }

  lemma ClaimsAre(f: Frame, r: Reason)
    requires Labelled(f)
    ensures Claims(f, r) <==> Says(f, r)
  {
    match r
    case InsufficientKeypoints =>
      AllCounted(f);
      hide Visible;
      assert {0, 1, 2, 3} <= VisibleOnes(f) <==> forall i :: 0 <= i < CORNERS ==> VisibleAt(f, i);
    case UncertaintyTooLarge =>
      forall i: nat ensures i < KEYPOINTS && UncertainBeyond(f.keypoints[i], f.tolerance)
                    <==> VisibleAt(f, i) && f.keypoints[i].value.uncertainty > f.tolerance { }
    case ProjectionError =>
      forall i: nat ensures i < KEYPOINTS && ErrorBeyond(f.keypoints[i], f.tolerance)
                    <==> VisibleAt(f, i) && f.keypoints[i].value.error > f.tolerance { }
    case LineError =>
      forall i: nat ensures i < LINES && LineBeyond(f.lines[i], f.tolerance)
        <==> i < |f.lines| && f.lines[i].metric.Some? && f.lines[i].metric.value.p95 > f.tolerance { }
    case _ =>
  }

  /** A frame is judged incorrect exactly if some keypoint or line is off, and accepted exactly if no reason at all
      says something true of its numbers. */
  lemma VerdictFollowsTheNumbers(f: Frame)
    requires Labelled(f)
    ensures VerdictOf(f) == Incorrect <==> exists i: nat :: PointIsOff(f, i) || LineIsOff(f, i)
    ensures VerdictOf(f) == Accept <==> forall r :: !Says(f, r)
    ensures Contradicted(f) <==> exists i: nat :: PointIsOff(f, i) || LineIsOff(f, i)
    ensures Sufficient(f) <==> forall r :: !IsContradiction(r) ==> !Says(f, r)
  {
    forall r ensures Claims(f, r) <==> Says(f, r) { ClaimsAre(f, r); }
    ContradictionsAre(f);
    hide Says, Claims, PointIsOff, LineIsOff, Contradicted, Labelled;
    SufficientMeansNoClaim(f);
    AcceptedExactlyWhenSufficient(f);
    hide Sufficient;
  }

  lemma ContradictionsAre(f: Frame)
    requires Labelled(f)
    ensures Contradicted(f) <==> exists i: nat :: PointIsOff(f, i) || LineIsOff(f, i)
    ensures Contradicted(f) <==> exists r :: IsContradiction(r) && Says(f, r)
  {
    if i: nat :| PointIsOff(f, i) || LineIsOff(f, i) {
      assert PointIsOff(f, i) ==> Contradicts(f.keypoints[i], f.tolerance) && Says(f, KeypointMisaligned(i));
      assert LineIsOff(f, i) ==> LineContradicts(f.lines[i], f.tolerance) && Says(f, LineMisaligned(i));
    }
    if Contradicted(f) {
      if i :| 0 <= i < KEYPOINTS && Contradicts(f.keypoints[i], f.tolerance) {
        assert PointIsOff(f, i);
      } else {
        var i :| 0 <= i < LINES && LineContradicts(f.lines[i], f.tolerance);
        assert LineIsOff(f, i);
      }
    }
  }

  lemma SufficientMeansNoClaim(f: Frame)
    requires Labelled(f)
    ensures Sufficient(f) <==> forall r :: !IsContradiction(r) ==> !Claims(f, r)
  {
    if forall r :: !IsContradiction(r) ==> !Claims(f, r) { NothingMissing(f, []); }
    hide Visible;
  }

  /** Dropping the support test is judging with full support: nothing else of the frame changes. */
  lemma IgnoringSupportChangesNothingElse(f: Frame, i: nat)
    requires i < |f.lines|
    ensures var g := SupportIgnored(f);
            g == f.(lines := g.lines) && |g.lines| == |f.lines|
            && g.lines[i] == if f.lines[i].metric == None then f.lines[i]
                             else var m := f.lines[i].metric.value;
                                  Line(Some(Metric(m.p95, m.coverage, 1.0)), f.lines[i].uncertainty)
  {}
}
